/** The recursive walks over the surface graph: `update_current_state_recursive` (the sync walk)
    and the two submit walks, `apply_buffered_surface_update_recursive` and
    `reapply_buffer_recursive`, which differ only in what they do at a surface. */
module SurfaceWalk {
  import opened Wrappers
  import opened SurfaceGraph

  // ---------------------------------------------------------------------------------------------
  // What a walk should visit
  // ---------------------------------------------------------------------------------------------

  /** `x` hangs `n` links below `root`; every surface on the way, `x` included, is live and in `follow`. */
  ghost predicate Hangs(g: Graph, follow: set<Id>, root: Id, x: Id, n: nat)
    decreases n
  {
    if n == 0 then x == root
    else x in g.alive && x in follow && LiveParent(g, x).Some? && Hangs(g, follow, root, g.parent[x], n - 1)
  }

  /** `root` itself and the live descendants of `root` that no surface outside `follow` cuts off. */
  ghost predicate Below(g: Graph, follow: set<Id>, root: Id, x: Id) {
    exists n: nat :: Hangs(g, follow, root, x, n)
  }

  ghost predicate NoRepeats(s: seq<Id>) {
    forall i, j | 0 <= i < j < |s| :: s[i] != s[j]
  }

  lemma NoRepeatsJoined(s: seq<Id>, t: seq<Id>)
    requires NoRepeats(s) && NoRepeats(t) && forall x | x in t :: x !in s
    ensures NoRepeats(s + t)
  {
    forall i, j | 0 <= i < j < |s + t| ensures (s + t)[i] != (s + t)[j] {
      if i < |s| <= j {
        assert t[j - |s|] in t;
      }
    }
  }

  lemma {:induction false} HangsGivesUp(g: Graph, follow: set<Id>, root: Id, x: Id, n: nat)
    requires Hangs(g, follow, root, x, n)
    ensures Up(g, x, n, root)
    decreases n
  {
    if n > 0 {
      HangsGivesUp(g, follow, root, g.parent[x], n - 1);
    }
  }

  /** The link nearest the root can be taken off the chain as well as the one nearest `x`. */
  lemma {:induction false} HangsFromChild(g: Graph, follow: set<Id>, root: Id, x: Id, n: nat) returns (c: Id)
    requires Hangs(g, follow, root, x, n) && n > 0
    ensures c in g.alive && c in follow && LiveParent(g, c) == Some(root) && Hangs(g, follow, c, x, n - 1)
    decreases n
  {
    if n == 1 {
      c := x;
    } else {
      c := HangsFromChild(g, follow, root, g.parent[x], n - 1);
    }
  }

  lemma {:induction false} HangsUnderParent(g: Graph, follow: set<Id>, root: Id, c: Id, x: Id, n: nat)
    requires Hangs(g, follow, c, x, n)
    requires c in g.alive && c in follow && LiveParent(g, c) == Some(root)
    ensures Hangs(g, follow, root, x, n + 1)
    decreases n
  {
    if n > 0 {
      HangsUnderParent(g, follow, root, c, g.parent[x], n - 1);
    }
  }

  /** `Below` unfolded at the root: this is the recursion the program performs. */
  lemma BelowUnfold(g: Graph, follow: set<Id>, root: Id, x: Id)
    requires Inv(g) && g.linking.None? && root in g.alive
    ensures Below(g, follow, root, x) <==>
            x == root || exists c | c in LiveChildren(g, root) :: c in follow && Below(g, follow, c, x)
  {
    if Below(g, follow, root, x) && x != root {
      var n: nat :| Hangs(g, follow, root, x, n);
      var c := HangsFromChild(g, follow, root, x, n);
      assert c in LiveChildren(g, root);
      assert Below(g, follow, c, x);
    }
    if x == root {
      assert Hangs(g, follow, root, x, 0);
    }
    forall c | c in LiveChildren(g, root) && c in follow && Below(g, follow, c, x)
      ensures Below(g, follow, root, x)
    {
      var n: nat :| Hangs(g, follow, c, x, n);
      HangsUnderParent(g, follow, root, c, x, n);
    }
  }

  lemma {:induction false} UpSplit(g: Graph, x: Id, n: nat, a: Id, m: nat, b: Id)
    requires Up(g, x, n, a) && Up(g, x, m, b) && n <= m
    ensures Up(g, a, m - n, b)
    decreases n
  {
    if n > 0 {
      UpSplit(g, g.parent[x], n - 1, a, m - 1, b);
    }
  }

  /** In a forest, nothing hangs below two different children of one surface, nor does the surface. */
  lemma SubtreesAreDisjoint(g: Graph, rank: Id -> nat, follow: set<Id>, root: Id, c: Id, d: Id, x: Id)
    requires Ranks(g, rank)
    requires c in g.alive && d in g.alive && LiveParent(g, c) == Some(root) && LiveParent(g, d) == Some(root)
    requires Below(g, follow, c, x) && Below(g, follow, d, x)
    ensures c == d && x != root
  {
    var n: nat :| Hangs(g, follow, c, x, n);
    var m: nat :| Hangs(g, follow, d, x, m);
    HangsGivesUp(g, follow, c, x, n);
    HangsGivesUp(g, follow, d, x, m);
    RankAlong(g, rank, x, n, c);
    if n <= m {
      UpSplit(g, x, n, c, m, d);
      if n < m {
        assert Up(g, root, m - n - 1, d);
        RankAlong(g, rank, root, m - n - 1, d);
      }
    } else {
      UpSplit(g, x, m, d, n, c);
      assert Up(g, root, n - m - 1, c);
      RankAlong(g, rank, root, n - m - 1, c);
    }
  }

  // ---------------------------------------------------------------------------------------------
  // Which children a sync walk enters
  // ---------------------------------------------------------------------------------------------

  /** What a parent-sync filter captured: is its `wl_subsurface` object still there, and its sync flag. */
  datatype Filter = Filter(objectLive: bool, isSync: bool)

  /** The surfaces with the subsurface role (a role is for life) and the filters that are set. */
  datatype Roles = Roles(subsurfaces: set<Id>, filters: map<Id, Filter>)

  /** `Subsurface::is_effectively_sync`: looks one link up, not along the whole chain. */
  predicate IsEffectivelySync(g: Graph, roles: Roles, s: Id)
    requires s in roles.filters
  {
    if !roles.filters[s].isSync then
      var p := LiveParent(g, s);
      p.Some? && p.value in roles.subsurfaces
    else
      true
  }

  /** `Surface::requires_surface_syncronization`. */
  predicate RequiresSync(g: Graph, roles: Roles, s: Id) {
    if s !in roles.subsurfaces then false
    else if s !in roles.filters then false
    else if !roles.filters[s].objectLive then true
    else IsEffectivelySync(g, roles, s)
  }

  function SyncChildren(g: Graph, roles: Roles): set<Id> {
    set s | s in g.alive && RequiresSync(g, roles, s)
  }

  /** The sub-surfaces whose filter was set and not cleared by `wl_subsurface.destroy`. */
  function Filtered(roles: Roles): set<Id> {
    set s | s in roles.subsurfaces && s in roles.filters
  }

  /** Under a sub-surface the sync flags do not matter: the code looks one link up, and the chain enters
      each link from a sub-surface. */
  lemma {:induction false} SyncChainIffFiltered(g: Graph, roles: Roles, root: Id, x: Id, n: nat)
    requires root in roles.subsurfaces
    ensures Hangs(g, SyncChildren(g, roles), root, x, n) <==> Hangs(g, Filtered(roles), root, x, n)
    decreases n
  {
    if n > 0 && x in g.alive && LiveParent(g, x).Some? {
      SyncChainIffFiltered(g, roles, root, g.parent[x], n - 1);
    }
  }

  lemma SyncWalkRule(g: Graph, roles: Roles, root: Id)
    requires root in roles.subsurfaces
    ensures forall x :: Below(g, SyncChildren(g, roles), root, x) <==> Below(g, Filtered(roles), root, x)
  {
    forall x, n: nat
      ensures Hangs(g, SyncChildren(g, roles), root, x, n) <==> Hangs(g, Filtered(roles), root, x, n)
    {
      SyncChainIffFiltered(g, roles, root, x, n);
    }
  }

  // ---------------------------------------------------------------------------------------------
  // The recursive rule of `wl_subsurface`
  // ---------------------------------------------------------------------------------------------

  /** Synchronized by itself: the flag is set, or the object that held it is gone and the filter is not. */
  predicate OwnSync(roles: Roles, s: Id) {
    s in roles.subsurfaces && s in roles.filters && (!roles.filters[s].objectLive || roles.filters[s].isSync)
  }

  /** `n` links up, through sub-surfaces whose filter is set, is one that is synchronized by itself. */
  ghost predicate SyncUp(g: Graph, roles: Roles, s: Id, n: nat)
    decreases n
  {
    if n == 0 then OwnSync(roles, s)
    else s in Filtered(roles) && LiveParent(g, s).Some? && SyncUp(g, roles, g.parent[s], n - 1)
  }

  /** Effectively synchronized by the protocol's rule. */
  ghost predicate RuleSync(g: Graph, roles: Roles, s: Id) {
    exists n: nat :: SyncUp(g, roles, s, n)
  }

  /** It is the recursive rule: a sub-surface is effectively synchronized if it is so by itself, or if
      its parent is an effectively synchronized sub-surface. */
  lemma RuleUnfold(g: Graph, roles: Roles, s: Id)
    ensures RuleSync(g, roles, s) <==>
              OwnSync(roles, s)
              || (s in Filtered(roles) && LiveParent(g, s).Some? && RuleSync(g, roles, g.parent[s]))
  {
    if RuleSync(g, roles, s) && !OwnSync(roles, s) {
      var n: nat :| SyncUp(g, roles, s, n);
      assert SyncUp(g, roles, g.parent[s], n - 1);
    }
    if OwnSync(roles, s) {
      assert SyncUp(g, roles, s, 0);
    }
    if s in Filtered(roles) && LiveParent(g, s).Some? && RuleSync(g, roles, g.parent[s]) {
      var n: nat :| SyncUp(g, roles, g.parent[s], n);
      assert SyncUp(g, roles, s, n + 1);
    }
  }

  lemma RuleSyncIsFiltered(g: Graph, roles: Roles, s: Id)
    requires RuleSync(g, roles, s)
    ensures s in Filtered(roles)
  {
    var n: nat :| SyncUp(g, roles, s, n);
  }

  /** Desynchronized, under a sub-surface that is not effectively synchronized itself. */
  ghost predicate UnderDesync(g: Graph, roles: Roles, s: Id) {
    && s in Filtered(roles) && !OwnSync(roles, s)
    && LiveParent(g, s).Some? && g.parent[s] in roles.subsurfaces && !RuleSync(g, roles, g.parent[s])
  }

  /** Looking one link up gives the rule's answer exactly when the surface is not a desynchronized one
      under a sub-surface that is not effectively synchronized. */
  lemma CodeFollowsRuleIff(g: Graph, roles: Roles, s: Id)
    ensures (RequiresSync(g, roles, s) <==> RuleSync(g, roles, s)) <==> !UnderDesync(g, roles, s)
  {
    RuleUnfold(g, roles, s);
    if LiveParent(g, s).Some? && RuleSync(g, roles, g.parent[s]) {
      RuleSyncIsFiltered(g, roles, g.parent[s]);
    }
  }

  ghost function RuleChildren(g: Graph, roles: Roles): set<Id> {
    set s | s in g.alive && RuleSync(g, roles, s)
  }

  /** `root` is effectively synchronized, or all its children are synchronized by themselves. */
  ghost predicate RuleHoldsBelow(g: Graph, roles: Roles, root: Id)
    requires Inv(g) && root in g.born
  {
    RuleSync(g, roles, root) || forall c | c in LiveChildren(g, root) && c in Filtered(roles) :: OwnSync(roles, c)
  }

  lemma {:induction false} RuleFromTheTop(g: Graph, roles: Roles, root: Id, x: Id, n: nat)
    requires Inv(g) && g.linking.None? && root in g.alive && RuleHoldsBelow(g, roles, root)
    ensures Hangs(g, Filtered(roles), root, x, n) <==> Hangs(g, RuleChildren(g, roles), root, x, n)
    ensures Hangs(g, Filtered(roles), root, x, n) && n > 0 ==> RuleSync(g, roles, x)
    decreases n
  {
    if n > 0 {
      if x in RuleChildren(g, roles) {
        RuleSyncIsFiltered(g, roles, x);
      }
      if x in g.alive && LiveParent(g, x).Some? {
        RuleFromTheTop(g, roles, root, g.parent[x], n - 1);
        RuleUnfold(g, roles, x);
        if Hangs(g, Filtered(roles), root, x, n) && n == 1 {
          assert x in LiveChildren(g, root);
        }
      }
    }
  }

  /** A walk from a sub-surface enters what the rule says exactly when the sub-surface is effectively
      synchronized or all its children are synchronized by themselves. */
  lemma WalkFollowsRuleIff(g: Graph, roles: Roles, root: Id)
    requires Inv(g) && g.linking.None? && Forest(g) && root in g.alive && root in roles.subsurfaces
    ensures (forall x :: Below(g, SyncChildren(g, roles), root, x) <==> Below(g, RuleChildren(g, roles), root, x))
            <==> RuleHoldsBelow(g, roles, root)
  {
    SyncWalkRule(g, roles, root);
    if RuleHoldsBelow(g, roles, root) {
      forall x, n: nat
        ensures Hangs(g, Filtered(roles), root, x, n) <==> Hangs(g, RuleChildren(g, roles), root, x, n)
      {
        RuleFromTheTop(g, roles, root, x, n);
      }
    } else {
      var c :| c in LiveChildren(g, root) && c in Filtered(roles) && !OwnSync(roles, c);
      ChildIsLeftOut(g, roles, root, c);
    }
  }

  lemma ChildIsLeftOut(g: Graph, roles: Roles, root: Id, c: Id)
    requires Inv(g) && g.linking.None? && Forest(g) && root in g.alive && !RuleSync(g, roles, root)
    requires c in LiveChildren(g, root) && c in Filtered(roles) && !OwnSync(roles, c)
    ensures Below(g, Filtered(roles), root, c) && !Below(g, RuleChildren(g, roles), root, c)
  {
    assert Hangs(g, Filtered(roles), root, root, 0);
    assert Hangs(g, Filtered(roles), root, c, 1);
    var rank: Id -> nat :| Ranks(g, rank);
    RuleUnfold(g, roles, c);
    assert c != root && !RuleSync(g, roles, c);
  }

  /** An input: a toplevel 0, a desynchronized sub-surface 1, and a desynchronized sub-surface 2 under it.
      Neither is synchronized by the rule, but the code takes 2 to be, and a walk from 1 enters it. */
  lemma DesyncUnderDesyncIsEntered() returns (g: Graph, roles: Roles)
    ensures Inv(g) && Forest(g) && g.parent == map[1 := 0, 2 := 1] && g.alive == {0, 1, 2}
    ensures roles == Roles({1, 2}, map[1 := Filter(true, false), 2 := Filter(true, false)])
    ensures !RequiresSync(g, roles, 1) && RequiresSync(g, roles, 2)
    ensures !RuleSync(g, roles, 1) && !RuleSync(g, roles, 2)
    ensures Below(g, SyncChildren(g, roles), 1, 2) && !Below(g, RuleChildren(g, roles), 1, 2)
  {
    g := Graph({0, 1, 2}, {0, 1, 2}, map[1 := 0, 2 := 1], map[0 := {1}, 1 := {2}, 2 := {}], None);
    roles := Roles({1, 2}, map[1 := Filter(true, false), 2 := Filter(true, false)]);
    var rank: Id -> nat := x => if x >= 2 then 0 else 2 - x;
    assert Ranks(g, rank);
    RuleUnfold(g, roles, 0);
    RuleUnfold(g, roles, 1);
    RuleUnfold(g, roles, 2);
    ChildIsLeftOut(g, roles, 1, 2);
    SyncWalkRule(g, roles, 1);
  }

  // ---------------------------------------------------------------------------------------------
  // The tree of surfaces and its walks
  // ---------------------------------------------------------------------------------------------

  class SurfaceTree {
    var born: set<Id>
    var alive: set<Id>
    var parent: map<Id, Id>
    var children: map<Id, set<Id>>
    var toplevels: map<Id, nat>  // the toplevel a surface is shown in; a new surface has none

    ghost function View(): Graph
      reads this
    {
      Graph(born, alive, parent, children, None)
    }

    constructor ()
      ensures View() == EMPTY && toplevels == map[]
    {
      born, alive, parent, children, toplevels := {}, {}, map[], map[], map[];
    }

    method NewSurface(s: Id)
      requires Inv(View()) && s !in born
      modifies this
      ensures Inv(View()) && View() == Next(old(View()), New(s)) && toplevels == old(toplevels)
    {
      StepKeepsInv(View(), New(s));
      born, alive, children := born + {s}, alive + {s}, children[s := {}];
    }

    /** The first parent wins; a later call leaves the graph alone. The toplevel is taken over from `p`
        in any case. */
    method SetParent(s: Id, p: Id)
      requires Inv(View()) && s in alive && p in alive
      modifies this
      ensures Inv(View()) && born == old(born) && alive == old(alive)
      ensures s in parent && parent[s] == if s in old(parent) then old(parent[s]) else p
      ensures s in LiveChildren(View(), p) <==> parent[s] == p
      ensures forall x | x != s :: x in parent <==> x in old(parent)
      ensures forall x | x != s && x in parent :: parent[x] == old(parent[x])
      ensures forall q | q in born :: children[q] - {s} == old(children[q]) - {s}
      ensures toplevels - {s} == old(toplevels) - {s}
      ensures s in toplevels <==> p in old(toplevels)
      ensures s in toplevels ==> toplevels[s] == old(toplevels)[p]
    {
      toplevels := if p in toplevels then toplevels[s := toplevels[p]] else toplevels - {s};
      if s !in parent {
        ghost var g := View();
        StepKeepsInv(g, StoreParent(s, p));
        StepKeepsInv(Next(g, StoreParent(s, p)), AddToRegistry);
        parent := parent[s := p];
        children := children[p := children[p] + {s}];
        assert View() == Next(Next(g, StoreParent(s, p)), AddToRegistry);
      }
    }

    /** Visits `root` and, in an order the registry chooses, everything below it that `follow` does
        not cut off: each surface exactly once. */
    method Walk(root: Id, follow: set<Id>, ghost rank: Id -> nat) returns (visited: seq<Id>)
      requires Inv(View()) && Ranks(View(), rank) && root in alive
      ensures |visited| > 0 && visited[0] == root && NoRepeats(visited)
      ensures forall x :: x in visited <==> Below(View(), follow, root, x)
      decreases rank(root)
    {
      visited := [root];
      var rest := children[root] * alive;
      ghost var entered: set<Id> := {};
      while rest != {}
        invariant entered !! rest && entered + rest == LiveChildren(View(), root)
        invariant |visited| > 0 && visited[0] == root && NoRepeats(visited)
        invariant forall x :: x in visited <==>
                    x == root || exists c | c in entered :: c in follow && Below(View(), follow, c, x)
        decreases rest
      {
        var c :| c in rest;
        rest := rest - {c};
        if c in follow {
          var below := Walk(c, follow, rank);
          forall x | x in below ensures x !in visited {
            assert Hangs(View(), follow, c, c, 0);
            forall d | d in entered && d in follow ensures !Below(View(), follow, d, x) {
              if Below(View(), follow, d, x) {
                SubtreesAreDisjoint(View(), rank, follow, root, c, d, x);
                assert false;
              }
            }
            SubtreesAreDisjoint(View(), rank, follow, root, c, c, x);
          }
          NoRepeatsJoined(visited, below);
          visited := visited + below;
        }
        entered := entered + {c};
      }
      forall x ensures x in visited <==> Below(View(), follow, root, x) {
        BelowUnfold(View(), follow, root, x);
      }
    }

    /** The two submit walks reach every live descendant exactly once. */
    method SubmitWalk(root: Id, ghost rank: Id -> nat) returns (visited: seq<Id>)
      requires Inv(View()) && Ranks(View(), rank) && root in alive
      ensures |visited| > 0 && visited[0] == root && NoRepeats(visited)
      ensures forall x :: x in visited <==> Below(View(), alive, root, x)
    {
      visited := Walk(root, alive, rank);
    }

    /** The sync walk started at a sub-surface reaches exactly once every live descendant that no
        cleared filter cuts off, whatever the sync flags are. */
    method UpdateCurrentStateRecursive(root: Id, roles: Roles, ghost rank: Id -> nat) returns (visited: seq<Id>)
      requires Inv(View()) && Ranks(View(), rank) && root in alive && root in roles.subsurfaces
      ensures |visited| > 0 && visited[0] == root && NoRepeats(visited)
      ensures forall x :: x in visited <==> Below(View(), Filtered(roles), root, x)
    {
      var g := Graph(born, alive, parent, children, None);
      visited := Walk(root, SyncChildren(g, roles), rank);
      SyncWalkRule(g, roles, root);
    }

    /** The surfaces whose updated-state handlers a commit of `s` runs, in order. Both paths run
        those of `s` first and once; only the synchronized path goes on to descendants. */
    method OnCommit(s: Id, roles: Roles, ghost rank: Id -> nat) returns (ran: seq<Id>)
      requires Inv(View()) && Ranks(View(), rank) && s in alive
      ensures |ran| > 0 && ran[0] == s && NoRepeats(ran)
      ensures RequiresSync(View(), roles, s) ==> forall x :: x in ran <==> Below(View(), Filtered(roles), s, x)
      ensures !RequiresSync(View(), roles, s) ==> ran == [s]
    {
      var g := Graph(born, alive, parent, children, None);
      if RequiresSync(g, roles, s) {
        ran := UpdateCurrentStateRecursive(s, roles, rank);
      } else {
        ran := [s];
      }
    }
  }
}
