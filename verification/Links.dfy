/** The link sets of a group of processes: who is linked to whom. */
module Links {
  import opened Identifiers

  /** Each process's `links`. */
  type Graph = map<Pid, set<Pid>>

  /** Both ends know of every link. */
  ghost predicate Symmetric(g: Graph) {
    forall a, b :: a in g && b in g[a] ==> b in g && a in g[b]
  }

  /** `link` */
  function Joined(g: Graph, a: Pid, b: Pid): Graph
    requires a in g && b in g
  {
    var g1 := g[a := g[a] + {b}];
    g1[b := g1[b] + {a}]
  }

  /** `unlink` */
  function Parted(g: Graph, a: Pid, b: Pid): Graph
    requires a in g && b in g
  {
    var g1 := g[a := g[a] - {b}];
    g1[b := g1[b] - {a}]
  }

  lemma JoinedIsTwoSided(g: Graph, a: Pid, b: Pid)
    requires Symmetric(g) && a in g && b in g
    ensures Symmetric(Joined(g, a, b)) && Joined(g, a, b).Keys == g.Keys
    ensures forall x, y ::
      x in g ==> (y in Joined(g, a, b)[x] <==> y in g[x] || (x == a && y == b) || (x == b && y == a))
  {
  }

  lemma PartedIsTwoSided(g: Graph, a: Pid, b: Pid)
    requires Symmetric(g) && a in g && b in g
    ensures Symmetric(Parted(g, a, b)) && Parted(g, a, b).Keys == g.Keys
    ensures forall x, y ::
      x in g ==> (y in Parted(g, a, b)[x] <==> y in g[x] && !(x == a && y == b) && !(x == b && y == a))
  {
  }
}
