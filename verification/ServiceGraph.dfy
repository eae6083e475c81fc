/** Directed graphs of service names and the reachability facts behind the catalog's depth-first walks.
    The walks remember only the names on the current path, so reachability is stated relative to a
    set of names the path has to avoid. */
module ServiceGraph {

  type Graph = map<string, seq<string>>

  predicate Edge(g: Graph, a: string, b: string) {
    a in g && b in g[a]
  }

  ghost predicate IsPath(g: Graph, p: seq<string>) {
    p != [] && forall i, j :: 0 <= i && j == i + 1 && j < |p| ==> Edge(g, p[i], p[j])
  }

  ghost predicate IsPathAvoiding(g: Graph, p: seq<string>, from: string, to: string, avoid: set<string>) {
    IsPath(g, p) && p[0] == from && p[|p| - 1] == to &&
    forall i :: 0 <= i < |p| ==> p[i] !in avoid
  }

  ghost predicate Reaches(g: Graph, from: string, to: string, avoid: set<string>) {
    exists p :: IsPathAvoiding(g, p, from, to, avoid)
  }

  /** A non-empty path leads from `from` to `to`. */
  ghost predicate Leads(g: Graph, from: string, to: string) {
    exists p :: IsPath(g, p) && |p| > 1 && p[0] == from && p[|p| - 1] == to
  }

  ghost predicate Acyclic(g: Graph) {
    forall a :: !Leads(g, a, a)
  }

  lemma PathTail(g: Graph, p: seq<string>, k: nat)
    requires IsPath(g, p) && k < |p|
    ensures IsPath(g, p[k..])
  {
    forall i, j | 0 <= i && j == i + 1 && j < |p[k..]| ensures Edge(g, p[k..][i], p[k..][j]) {
      assert Edge(g, p[k + i], p[k + j]);
    }
  }

  lemma PathCons(g: Graph, a: string, p: seq<string>)
    requires IsPath(g, p) && a in g && p[0] in g[a]
    ensures IsPath(g, [a] + p)
  {
    var q := [a] + p;
    forall i, j | 0 <= i && j == i + 1 && j < |q| ensures Edge(g, q[i], q[j]) {
      if i > 0 { assert Edge(g, p[i - 1], p[j - 1]); }
    }
  }

  lemma PathSnoc(g: Graph, p: seq<string>, b: string)
    requires IsPath(g, p) && p[|p| - 1] in g && b in g[p[|p| - 1]]
    ensures IsPath(g, p + [b])
  {
    var q := p + [b];
    forall i, j | 0 <= i && j == i + 1 && j < |q| ensures Edge(g, q[i], q[j]) {
      if j < |p| { assert Edge(g, p[i], p[j]); }
    }
  }

  /** The last position of `a` on `p`. */
  ghost function LastIndex(p: seq<string>, a: string): (k: nat)
    requires a in p
    ensures k < |p| && p[k] == a && a !in p[k + 1..]
  {
    if p[|p| - 1] == a then |p| - 1 else
      var front := p[..|p| - 1];
      assert a in front by {
        var i :| 0 <= i < |p| && p[i] == a;
        assert front[i] == a;
      }
      var k := LastIndex(front, a);
      assert p[k + 1..] == front[k + 1..] + [p[|p| - 1]];
      k
  }

  /** The step every depth-first walk takes: beyond its first node, a path that avoids `avoid` can be
      shortened to one that avoids that first node as well. */
  lemma {:induction false} ReachesStep(g: Graph, from: string, to: string, avoid: set<string>)
    requires from !in avoid
    ensures Reaches(g, from, to, avoid) <==>
            from == to || (from in g && exists next :: next in g[from] && Reaches(g, next, to, avoid + {from}))
  {
    if Reaches(g, from, to, avoid) && from != to {
      var p :| IsPathAvoiding(g, p, from, to, avoid);
      var k := LastIndex(p, from);
      var q := p[k + 1..];
      PathTail(g, p, k + 1);
      assert Edge(g, p[k], p[k + 1]);
      assert IsPathAvoiding(g, q, q[0], to, avoid + {from});
    }
    if from == to {
      assert IsPathAvoiding(g, [from], from, to, avoid);
    } else if from in g && exists next :: next in g[from] && Reaches(g, next, to, avoid + {from}) {
      var next :| next in g[from] && Reaches(g, next, to, avoid + {from});
      var q :| IsPathAvoiding(g, q, next, to, avoid + {from});
      PathCons(g, from, q);
      assert IsPathAvoiding(g, [from] + q, from, to, avoid);
    }
  }

  lemma LeadsEdge(g: Graph, a: string, b: string)
    requires a in g && b in g[a]
    ensures Leads(g, a, b)
  {
    assert IsPath(g, [a, b]);
  }

  lemma LeadsSnoc(g: Graph, a: string, b: string, c: string)
    requires Leads(g, a, b) && b in g && c in g[b]
    ensures Leads(g, a, c)
  {
    var p :| IsPath(g, p) && |p| > 1 && p[0] == a && p[|p| - 1] == b;
    PathSnoc(g, p, c);
    assert (p + [c])[0] == a && (p + [c])[|p|] == c;
  }

  lemma LeadsCons(g: Graph, a: string, b: string, c: string)
    requires a in g && b in g[a] && Leads(g, b, c)
    ensures Leads(g, a, c)
  {
    var p :| IsPath(g, p) && |p| > 1 && p[0] == b && p[|p| - 1] == c;
    PathCons(g, a, p);
    assert ([a] + p)[0] == a && ([a] + p)[|p|] == c;
  }

  /** A set of nodes all of whose successors lie in the set. */
  ghost predicate Closed(g: Graph, nodes: set<string>) {
    forall a, b {:trigger Edge(g, a, b)} :: a in nodes && Edge(g, a, b) ==> b in nodes
  }

  lemma {:induction false} ClosedKeepsPaths(g: Graph, nodes: set<string>, p: seq<string>, k: nat)
    requires Closed(g, nodes) && IsPath(g, p) && p[0] in nodes && k < |p|
    ensures p[k] in nodes
  {
    if k > 0 {
      ClosedKeepsPaths(g, nodes, p, k - 1);
      assert Edge(g, p[k - 1], p[k]);
    }
  }

  lemma SubgraphLeads(g: Graph, sub: Graph, a: string, b: string)
    requires forall x :: x in sub ==> x in g && forall y :: y in sub[x] ==> y in g[x]
    ensures Leads(sub, a, b) ==> Leads(g, a, b)
  {
    if p :| IsPath(sub, p) && |p| > 1 && p[0] == a && p[|p| - 1] == b {
      assert IsPath(g, p);
    }
  }

  /** Dropping nodes and edges keeps a graph acyclic. */
  lemma SubgraphAcyclic(g: Graph, sub: Graph)
    requires Acyclic(g)
    requires forall x :: x in sub ==> x in g && forall y :: y in sub[x] ==> y in g[x]
    ensures Acyclic(sub)
  {
    forall a ensures !Leads(sub, a, a) {
      SubgraphLeads(g, sub, a, a);
    }
  }
}
