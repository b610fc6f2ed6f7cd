/** The parent/children graph of one client's surfaces.

    A surface stores its parent once (a `OnceLock` holding a weak reference) and a registry of
    weak references to its children. Both ends are weak, so a surface may die at any time; a
    weak reference keeps the allocation, so an identity is never reused while something names it.

    `set_parent` writes the two ends one after the other, and the shell-switch task may look at
    the graph in between; `linking` is that half-finished link. */
module SurfaceGraph {
  import opened Wrappers

  type Id = nat

  datatype Graph = Graph(
    born: set<Id>,
    alive: set<Id>,
    parent: map<Id, Id>,
    children: map<Id, set<Id>>,
    linking: Option<(Id, Id)>)

  datatype Step =
    | New(s: Id)
    | StoreParent(s: Id, p: Id)
    | AddToRegistry
    | Drop(s: Id)

  const EMPTY := Graph({}, {}, map[], map[], None)

  /** What the program can do next. A surface being linked, and its parent, are held by the request. */
  predicate Enabled(g: Graph, a: Step) {
    match a
    case New(s) => s !in g.born
    case StoreParent(s, p) => g.linking.None? && s in g.alive && p in g.alive
    case AddToRegistry => g.linking.Some?
    case Drop(s) => s in g.alive && (g.linking.Some? ==> s != g.linking.value.0 && s != g.linking.value.1)
  }

  function Next(g: Graph, a: Step): Graph
    requires Inv(g) && Enabled(g, a)
  {
    match a
    case New(s) => g.(born := g.born + {s}, alive := g.alive + {s}, children := g.children[s := {}])
    case StoreParent(s, p) =>
      if s in g.parent then g else g.(parent := g.parent[s := p], linking := Some((s, p)))
    case AddToRegistry =>
      var (s, p) := g.linking.value;
      g.(children := g.children[p := g.children[p] + {s}], linking := None)
    case Drop(s) => g.(alive := g.alive - {s})
  }

  /** The two ends of every link agree, except for the one link that is half written. */
  ghost predicate Inv(g: Graph) {
    && g.alive <= g.born
    && g.children.Keys == g.born
    && g.parent.Keys <= g.born && g.parent.Values <= g.born
    && (forall s | s in g.parent :: s in g.children[g.parent[s]] || g.linking == Some((s, g.parent[s])))
    && (forall p, s | p in g.born && s in g.children[p] :: s in g.parent && g.parent[s] == p)
    && (g.linking.Some? ==>
          var (s, p) := g.linking.value;
          s in g.alive && p in g.alive && s in g.parent && g.parent[s] == p && s !in g.children[p])
  }

  /** `Registry::get_valid_contents`: the registered children that can still be upgraded. */
  function LiveChildren(g: Graph, p: Id): set<Id>
    requires Inv(g) && p in g.born
  {
    g.children[p] * g.alive
  }

  /** `Surface::parent`: the stored weak reference, upgraded. */
  function LiveParent(g: Graph, s: Id): (r: Option<Id>)
  {
    if s in g.parent && g.parent[s] in g.alive then Some(g.parent[s]) else None
  }

  lemma StepKeepsInv(g: Graph, a: Step)
    requires Inv(g) && Enabled(g, a)
    ensures Inv(Next(g, a))
  {
    var h := Next(g, a);
    match a
    case New(s) =>
    case StoreParent(s, p) =>
      if s !in g.parent {
        assert s !in g.children[p];
        assert h.parent.Values <= g.parent.Values + {p};
      }
    case AddToRegistry =>
      var (s, p) := g.linking.value;
      forall q, c | q in h.born && c in h.children[q] ensures c in h.parent && h.parent[c] == q {
      }
    case Drop(s) =>
  }

  /** Links are only ever added; what dies is the surface, not the reference to it. */
  lemma StepKeepsLinks(g: Graph, a: Step)
    requires Inv(g) && Enabled(g, a)
    ensures var h := Next(g, a);
            && (forall s | s in g.parent :: s in h.parent && h.parent[s] == g.parent[s])
            && (forall p | p in g.children :: p in h.children && g.children[p] <= h.children[p])
            && (forall s | s in g.born && s in h.alive :: s in g.alive)
  {
  }

  ghost predicate IsRun(g: Graph, steps: seq<Step>)
    requires Inv(g)
    decreases |steps|
  {
    steps == [] || (Enabled(g, steps[0]) && (StepKeepsInv(g, steps[0]); IsRun(Next(g, steps[0]), steps[1..])))
  }

  ghost function Run(g: Graph, steps: seq<Step>): (h: Graph)
    requires Inv(g) && IsRun(g, steps)
    ensures Inv(h)
    decreases |steps|
  {
    if steps == [] then g
    else StepKeepsInv(g, steps[0]); Run(Next(g, steps[0]), steps[1..])
  }

  /** Each surface gets at most one parent for life, whatever else is requested. */
  lemma {:induction false} ParentForLife(g: Graph, steps: seq<Step>)
    requires Inv(g) && IsRun(g, steps)
    ensures forall s | s in g.parent :: s in Run(g, steps).parent && Run(g, steps).parent[s] == g.parent[s]
    decreases |steps|
  {
    if steps != [] {
      StepKeepsInv(g, steps[0]);
      ParentForLife(Next(g, steps[0]), steps[1..]);
    }
  }

  /** In every run, whenever no link is half written, the live children of `p` are exactly the
      live surfaces whose parent is `p`. */
  lemma ChildrenAreTheSurfacesWithThatParent(steps: seq<Step>, p: Id)
    requires IsRun(EMPTY, steps)
    requires var g := Run(EMPTY, steps); p in g.alive && g.linking.None?
    ensures var g := Run(EMPTY, steps);
            LiveChildren(g, p) == set s | s in g.alive && LiveParent(g, s) == Some(p)
  {
    var g := Run(EMPTY, steps);
    forall s | s in g.alive && LiveParent(g, s) == Some(p) ensures s in LiveChildren(g, p) {
      assert s in g.parent;
    }
  }

  // ---------------------------------------------------------------------------------------------
  // Forests
  // ---------------------------------------------------------------------------------------------

  /** `rank` grows along every live parent link, so no surface is its own ancestor. */
  ghost predicate Ranks(g: Graph, rank: Id -> nat) {
    forall s | s in g.alive && LiveParent(g, s).Some? :: rank(s) < rank(g.parent[s])
  }

  ghost predicate Forest(g: Graph) {
    exists rank: Id -> nat :: Ranks(g, rank)
  }

  /** `a` is reached from `x` by `n` live parent links. */
  ghost predicate Up(g: Graph, x: Id, n: nat, a: Id)
    decreases n
  {
    if n == 0 then x == a
    else x in g.alive && LiveParent(g, x).Some? && Up(g, g.parent[x], n - 1, a)
  }

  ghost predicate IsSelfOrAncestor(g: Graph, a: Id, x: Id) {
    exists n: nat :: Up(g, x, n, a)
  }

  lemma {:induction false} RankAlong(g: Graph, rank: Id -> nat, x: Id, n: nat, a: Id)
    requires Ranks(g, rank) && Up(g, x, n, a)
    ensures rank(x) + n <= rank(a)
    decreases n
  {
    if n > 0 {
      RankAlong(g, rank, g.parent[x], n - 1, a);
    }
  }

  lemma {:induction false} UpSurvivesLink(g: Graph, h: Graph, x: Id, n: nat, a: Id)
    requires Up(g, x, n, a)
    requires h.alive == g.alive && forall s | s in g.parent :: s in h.parent && h.parent[s] == g.parent[s]
    ensures Up(h, x, n, a)
    decreases n
  {
    if n > 0 {
      UpSurvivesLink(g, h, g.parent[x], n - 1, a);
    }
  }

  /** The exact condition under which a new link keeps the graph a forest. `get_subsurface` does not
      check it, so this is what a client has to observe. */
  lemma LinkKeepsForestIff(g: Graph, s: Id, p: Id)
    requires Inv(g) && Enabled(g, StoreParent(s, p)) && s !in g.parent && Forest(g)
    ensures Forest(Next(g, StoreParent(s, p))) <==> !IsSelfOrAncestor(g, s, p)
  {
    var h := Next(g, StoreParent(s, p));
    if IsSelfOrAncestor(g, s, p) {
      var n: nat :| Up(g, p, n, s);
      UpSurvivesLink(g, h, p, n, s);
      forall rank: Id -> nat ensures !Ranks(h, rank) {
        if Ranks(h, rank) {
          assert LiveParent(h, s) == Some(p);
          RankAlong(h, rank, p, n, s);
        }
      }
    } else {
      var rank: Id -> nat :| Ranks(g, rank);
      ghost var up: Id -> nat := x => if IsSelfOrAncestor(g, x, p) then rank(x) + rank(s) + 1 else rank(x);
      assert Up(g, p, 0, p);
      forall c | c in h.alive && LiveParent(h, c).Some? ensures up(c) < up(h.parent[c]) {
        if c != s && IsSelfOrAncestor(g, c, p) {
          var n: nat :| Up(g, p, n, c);
          UpOneMore(g, p, n, c);
        }
      }
      assert Ranks(h, up);
    }
  }

  lemma {:induction false} UpOneMore(g: Graph, x: Id, n: nat, a: Id)
    requires Up(g, x, n, a) && a in g.alive && LiveParent(g, a).Some?
    ensures Up(g, x, n + 1, g.parent[a])
    decreases n
  {
    if n > 0 {
      UpOneMore(g, g.parent[x], n - 1, a);
    }
  }

  /** An input: one surface, made its own parent. */
  lemma OwnParentIsNoForest() returns (g: Graph)
    ensures g == Graph({0}, {0}, map[], map[0 := {}], None) && IsRun(EMPTY, [New(0)]) && g == Run(EMPTY, [New(0)])
    ensures Inv(g) && Forest(g) && Enabled(g, StoreParent(0, 0)) && !Forest(Next(g, StoreParent(0, 0)))
  {
    g := Graph({0}, {0}, map[], map[0 := {}], None);
    assert [New(0)][1..] == [];
    assert Next(EMPTY, New(0)) == g;
    assert Ranks(g, x => 0);
    assert Up(g, 0, 0, 0);
    LinkKeepsForestIff(g, 0, 0);
  }

  /** A request that makes no surface its own ancestor. */
  ghost predicate Orderly(g: Graph, a: Step) {
    a.StoreParent? && a.s !in g.parent ==> !IsSelfOrAncestor(g, a.s, a.p)
  }

  ghost predicate OrderlyRun(g: Graph, steps: seq<Step>)
    requires Inv(g) && IsRun(g, steps)
    decreases |steps|
  {
    steps == [] || (Orderly(g, steps[0]) && (StepKeepsInv(g, steps[0]); OrderlyRun(Next(g, steps[0]), steps[1..])))
  }

  lemma StepKeepsForest(g: Graph, a: Step)
    requires Inv(g) && Forest(g) && Enabled(g, a) && Orderly(g, a)
    ensures Forest(Next(g, a))
  {
    if a.StoreParent? && a.s !in g.parent {
      LinkKeepsForestIff(g, a.s, a.p);
    } else {
      var rank: Id -> nat :| Ranks(g, rank);
      var h := Next(g, a);
      forall s | s in h.alive && LiveParent(h, s).Some? ensures rank(s) < rank(h.parent[s]) {
        assert a.New? && s == a.s ==> s !in g.parent;
      }
      assert Ranks(h, rank);
    }
  }

  /** If no request makes a surface its own ancestor, the graph is a forest in every run. */
  lemma {:induction false} OrderlyRunsStayForests(g: Graph, steps: seq<Step>)
    requires Inv(g) && Forest(g) && IsRun(g, steps) && OrderlyRun(g, steps)
    ensures Forest(Run(g, steps))
    decreases |steps|
  {
    if steps != [] {
      var a := steps[0];
      var h := Next(g, a);
      StepKeepsInv(g, a);
      StepKeepsForest(g, a);
      OrderlyRunsStayForests(h, steps[1..]);
    }
  }
}
