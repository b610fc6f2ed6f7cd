/** A submit walk interleaved with everything else.

    `reapply_buffer_recursive` and `apply_buffered_surface_update_recursive` run in the task that
    switches or maps the panel shell while the client's own task keeps linking surfaces and other
    owners let surfaces die. A walk is a stack of frames, one per surface being processed; a frame
    holds strong references to its surface and to the children it still has to enter, so those
    cannot die. Entering a surface, starting to read its registry, having read it and returning from it
    are separate steps: the registry is locked piece by piece, so children may be added and die while it
    is read, and such a child may or may not be found. */
module ConcurrentWalk {
  import opened Wrappers
  import opened SurfaceGraph
  import opened SurfaceWalk

  /** `begun` is what the registry held when reading it began. */
  datatype Frame = Frame(node: Id, begun: Option<set<Id>>, todo: Option<set<Id>>)

  datatype Walk = Walk(frames: seq<Frame>, visited: seq<Id>)

  datatype System = System(g: Graph, w: Walk)

  datatype Move =
    | Other(a: Step)
    | BeginRead
    | ReadRegistry(found: set<Id>)
    | Enter(c: Id)
    | Leave

  function Start(g: Graph, root: Id): System {
    System(g, Walk([Frame(root, None, None)], [root]))
  }

  function Top(w: Walk): Frame
    requires w.frames != []
  {
    w.frames[|w.frames| - 1]
  }

  predicate Holds(f: Frame, s: Id) {
    s == f.node || (f.todo.Some? && s in f.todo.value)
  }

  ghost predicate Held(w: Walk, s: Id) {
    exists i | 0 <= i < |w.frames| :: Holds(w.frames[i], s)
  }

  ghost predicate CanMove(z: System, m: Move)
    requires Inv(z.g)
  {
    match m
    case Other(a) => Enabled(z.g, a) && Orderly(z.g, a) && (a.Drop? ==> !Held(z.w, a.s))
    case BeginRead => z.w.frames != [] && Top(z.w).begun.None? && Top(z.w).node in z.g.born
    case ReadRegistry(found) =>
      && z.w.frames != [] && Top(z.w).begun.Some? && Top(z.w).todo.None? && Top(z.w).node in z.g.born
      && Top(z.w).begun.value * z.g.alive <= found <= LiveChildren(z.g, Top(z.w).node)
    case Enter(c) => z.w.frames != [] && Top(z.w).todo.Some? && c in Top(z.w).todo.value
    case Leave => z.w.frames != [] && Top(z.w).todo == Some({})
  }

  function Moved(z: System, m: Move): System
    requires Inv(z.g) && CanMove(z, m)
  {
    var w := z.w;
    match m
    case Other(a) => z.(g := Next(z.g, a))
    case BeginRead =>
      var top := Top(w);
      z.(w := w.(frames := w.frames[|w.frames| - 1 := top.(begun := Some(z.g.children[top.node]))]))
    case ReadRegistry(found) =>
      z.(w := w.(frames := w.frames[|w.frames| - 1 := Top(w).(todo := Some(found))]))
    case Enter(c) =>
      var top := Top(w);
      var frames := w.frames[|w.frames| - 1 := top.(todo := Some(top.todo.value - {c}))];
      z.(w := Walk(frames + [Frame(c, None, None)], w.visited + [c]))
    case Leave => z.(w := w.(frames := w.frames[..|w.frames| - 1]))
  }

  // ---------------------------------------------------------------------------------------------
  // The invariant
  // ---------------------------------------------------------------------------------------------

  /** What a frame holds is live; what it still has to enter are unvisited children of its surface. */
  ghost predicate FrameInv(g: Graph, visited: seq<Id>, f: Frame) {
    && (forall c | Holds(f, c) :: c in g.alive)
    && (f.todo.Some? ==>
          forall c | c in f.todo.value :: c in g.parent && g.parent[c] == f.node && c !in visited)
  }

  /** The stack is a chain of parent links from the root; only its top may have a registry to read. */
  ghost predicate StackInv(z: System, root: Id) {
    var (g, frames) := (z.g, z.w.frames);
    && Inv(g)
    && (forall i | 0 <= i < |frames| :: FrameInv(g, z.w.visited, frames[i]))
    && (frames != [] ==> frames[0].node == root)
    && (forall i {:trigger Chained(g, frames, i)} | 0 < i < |frames| :: Chained(g, frames, i))
  }

  /** Frame `i` was entered from the registry that frame `i - 1` read. */
  predicate Chained(g: Graph, frames: seq<Frame>, i: nat)
    requires 0 < i < |frames|
  {
    var c := frames[i].node;
    frames[i - 1].todo.Some? && c in g.parent && g.parent[c] == frames[i - 1].node
  }

  predicate EnteredFrom(g: Graph, read: set<Id>, y: Id) {
    y in g.parent && g.parent[y] in read
  }

  /** `read` are the surfaces whose registry this walk has read: all it visited but the top one. */
  ghost predicate VisitInv(z: System, root: Id, read: set<Id>) {
    var (g, w) := (z.g, z.w);
    && NoRepeats(w.visited) && root in w.visited
    && (forall x | x in read :: x in w.visited)
    && (forall y {:trigger EnteredFrom(g, read, y)} | y in w.visited && y != root :: EnteredFrom(g, read, y))
    && (forall i | 0 <= i < |w.frames| ::
          w.frames[i].node in w.visited && (w.frames[i].todo.Some? <==> w.frames[i].node in read))
    && (forall y | y in w.visited && y !in read :: w.frames != [] && Top(w).node == y)
  }

  ghost predicate IsToDo(frames: seq<Frame>, c: Id) {
    exists i | 0 <= i < |frames| :: frames[i].todo.Some? && c in frames[i].todo.value
  }

  /** Of the surfaces `early` registered before the walk started, a live one whose parent's registry
      has been read is either visited or still to be entered. */
  ghost predicate CoverInv(z: System, early: set<Id>, read: set<Id>) {
    var (g, w) := (z.g, z.w);
    && (forall c | c in early :: c in g.parent && g.parent[c] in g.children && c in g.children[g.parent[c]])
    && (forall c | c in early && c in g.alive && g.parent[c] in read :: c in w.visited || IsToDo(w.frames, c))
    && (forall i, c | 0 <= i < |w.frames| && w.frames[i].begun.Some? && c in early && g.parent[c] == w.frames[i].node ::
          c in w.frames[i].begun.value)
  }

  ghost predicate WalkInv(z: System, root: Id, early: set<Id>, read: set<Id>)
  {
    StackInv(z, root) && Forest(z.g) && VisitInv(z, root, read) && CoverInv(z, early, read)
  }

  function Registered(g: Graph): set<Id>
    requires Inv(g)
  {
    set s | s in g.parent && s in g.children[g.parent[s]]
  }

  // ---------------------------------------------------------------------------------------------
  // Every step keeps it
  // ---------------------------------------------------------------------------------------------

  lemma {:induction false} StackGoesUp(z: System, root: Id, i: nat, j: nat)
    requires StackInv(z, root) && i <= j < |z.w.frames|
    ensures Up(z.g, z.w.frames[j].node, j - i, z.w.frames[i].node)
    decreases j - i
  {
    if i < j {
      StackGoesUp(z, root, i, j - 1);
      assert Chained(z.g, z.w.frames, j);
      assert FrameInv(z.g, z.w.visited, z.w.frames[j]) && Holds(z.w.frames[j], z.w.frames[j].node);
      assert FrameInv(z.g, z.w.visited, z.w.frames[j - 1]) && Holds(z.w.frames[j - 1], z.w.frames[j - 1].node);
    }
  }

  lemma NodesDiffer(z: System, root: Id, i: nat, j: nat)
    requires StackInv(z, root) && Forest(z.g) && i < j < |z.w.frames|
    ensures z.w.frames[i].node != z.w.frames[j].node
  {
    var rank: Id -> nat :| Ranks(z.g, rank);
    StackGoesUp(z, root, i, j);
    RankAlong(z.g, rank, z.w.frames[j].node, j - i, z.w.frames[i].node);
  }

  lemma StartInv(g: Graph, root: Id)
    requires Inv(g) && Forest(g) && root in g.alive
    ensures WalkInv(Start(g, root), root, Registered(g), {})
  {
  }

  lemma OtherKeepsInv(z: System, a: Step, root: Id, early: set<Id>, read: set<Id>)
    requires WalkInv(z, root, early, read) && CanMove(z, Other(a))
    ensures WalkInv(Moved(z, Other(a)), root, early, read)
  {
    var y := Moved(z, Other(a));
    StepKeepsInv(z.g, a);
    StepKeepsLinks(z.g, a);
    StepKeepsForest(z.g, a);
    forall i | 0 <= i < |y.w.frames| ensures FrameInv(y.g, y.w.visited, y.w.frames[i]) {
      assert FrameInv(z.g, z.w.visited, z.w.frames[i]);
    }
    forall i | 0 < i < |y.w.frames| ensures Chained(y.g, y.w.frames, i) {
      assert Chained(z.g, z.w.frames, i);
    }
    forall v | v in y.w.visited && v != root ensures EnteredFrom(y.g, read, v) {
      assert EnteredFrom(z.g, read, v);
    }
  }

  /** What the registry of the top surface gives was not visited before: a visited surface other than
      the root was entered from its one parent, and the root cannot be below itself. */
  lemma UnreadChildrenAreUnvisited(z: System, root: Id, early: set<Id>, read: set<Id>, c: Id)
    requires WalkInv(z, root, early, read) && z.w.frames != []
    requires Top(z.w).todo.None? && Top(z.w).node in z.g.born && c in LiveChildren(z.g, Top(z.w).node)
    ensures c !in z.w.visited
  {
    var k := |z.w.frames| - 1;
    var x := z.w.frames[k].node;
    if c == root {
      StackGoesUp(z, root, 0, k);
      assert FrameInv(z.g, z.w.visited, z.w.frames[k]) && Holds(z.w.frames[k], x);
      var rank: Id -> nat :| Ranks(z.g, rank);
      assert LiveParent(z.g, root) == Some(x);
      RankAlong(z.g, rank, x, k, root);
    }
    assert c != root && c in z.w.visited ==> EnteredFrom(z.g, read, c);
  }

  lemma BeginKeepsInv(z: System, root: Id, early: set<Id>, read: set<Id>)
    requires WalkInv(z, root, early, read) && CanMove(z, BeginRead)
    ensures WalkInv(Moved(z, BeginRead), root, early, read)
  {
    var (g, w) := (z.g, z.w);
    var k := |w.frames| - 1;
    var y := Moved(z, BeginRead);
    forall i | 0 <= i <= k ensures FrameInv(g, w.visited, y.w.frames[i]) {
      assert FrameInv(g, w.visited, w.frames[i]);
      assert forall c | Holds(y.w.frames[i], c) :: Holds(w.frames[i], c);
    }
    forall i | 0 < i <= k ensures Chained(g, y.w.frames, i) {
      assert Chained(g, w.frames, i);
    }
    forall c | c in early && c in g.alive && g.parent[c] in read && c !in w.visited ensures IsToDo(y.w.frames, c) {
      var i :| 0 <= i <= k && w.frames[i].todo.Some? && c in w.frames[i].todo.value;
      assert y.w.frames[i].todo == w.frames[i].todo;
    }
  }

  lemma ReadKeepsStack(z: System, found: set<Id>, root: Id, early: set<Id>, read: set<Id>)
    requires WalkInv(z, root, early, read) && CanMove(z, ReadRegistry(found))
    ensures StackInv(Moved(z, ReadRegistry(found)), root)
  {
    var (g, w) := (z.g, z.w);
    var k := |w.frames| - 1;
    var y := Moved(z, ReadRegistry(found));
    forall i | 0 <= i <= k ensures FrameInv(g, w.visited, y.w.frames[i]) {
      assert FrameInv(g, w.visited, w.frames[i]);
      if i == k {
        forall c | c in found ensures c !in w.visited {
          UnreadChildrenAreUnvisited(z, root, early, read, c);
        }
      }
    }
    forall i | 0 < i <= k ensures Chained(g, y.w.frames, i) {
      assert Chained(g, w.frames, i);
    }
  }

  lemma ReadKeepsVisits(z: System, found: set<Id>, root: Id, early: set<Id>, read: set<Id>)
    requires WalkInv(z, root, early, read) && CanMove(z, ReadRegistry(found))
    ensures VisitInv(Moved(z, ReadRegistry(found)), root, read + {Top(z.w).node})
  {
    var (g, w) := (z.g, z.w);
    var k := |w.frames| - 1;
    var x := w.frames[k].node;
    var y := Moved(z, ReadRegistry(found));
    forall v | v in w.visited && v != root ensures EnteredFrom(g, read + {x}, v) {
      assert EnteredFrom(g, read, v);
    }
    forall i | 0 <= i <= k
      ensures y.w.frames[i].node in w.visited && (y.w.frames[i].todo.Some? <==> y.w.frames[i].node in read + {x})
    {
      assert w.frames[i].node in w.visited;
      if i < k {
        NodesDiffer(z, root, i, k);
      }
    }
  }

  lemma ReadKeepsCover(z: System, found: set<Id>, root: Id, early: set<Id>, read: set<Id>)
    requires WalkInv(z, root, early, read) && CanMove(z, ReadRegistry(found))
    ensures CoverInv(Moved(z, ReadRegistry(found)), early, read + {Top(z.w).node})
  {
    var (g, w) := (z.g, z.w);
    var k := |w.frames| - 1;
    var x := w.frames[k].node;
    var y := Moved(z, ReadRegistry(found));
    forall c | c in early && c in g.alive && g.parent[c] in read + {x} && c !in w.visited
      ensures IsToDo(y.w.frames, c)
    {
      if g.parent[c] == x {
        assert c in y.w.frames[k].todo.value;
      } else {
        var i :| 0 <= i <= k && w.frames[i].todo.Some? && c in w.frames[i].todo.value;
        assert y.w.frames[i] == w.frames[i];
      }
    }
  }

  lemma EnterKeepsStack(z: System, c: Id, root: Id, early: set<Id>, read: set<Id>)
    requires WalkInv(z, root, early, read) && CanMove(z, Enter(c))
    ensures StackInv(Moved(z, Enter(c)), root)
  {
    var (g, w) := (z.g, z.w);
    var k := |w.frames| - 1;
    var x := w.frames[k];
    var y := Moved(z, Enter(c));
    assert y.w.frames[k] == x.(todo := Some(x.todo.value - {c})) && y.w.frames[k + 1] == Frame(c, None, None);
    assert FrameInv(g, w.visited, x) && Holds(x, c) && Holds(x, x.node);
    forall i | 0 <= i <= k + 1 ensures FrameInv(g, y.w.visited, y.w.frames[i]) {
      if i < k {
        assert y.w.frames[i] == w.frames[i] && FrameInv(g, w.visited, w.frames[i]);
        NodesDiffer(z, root, i, k);
      } else if i == k {
        assert forall v | Holds(y.w.frames[k], v) :: Holds(x, v);
      }
    }
    forall i | 0 < i <= k + 1 ensures Chained(g, y.w.frames, i) {
      if i <= k {
        assert Chained(g, w.frames, i);
      }
    }
  }

  lemma EnterKeepsVisits(z: System, c: Id, root: Id, early: set<Id>, read: set<Id>)
    requires WalkInv(z, root, early, read) && CanMove(z, Enter(c))
    ensures VisitInv(Moved(z, Enter(c)), root, read)
  {
    var (g, w) := (z.g, z.w);
    var k := |w.frames| - 1;
    var x := w.frames[k];
    var y := Moved(z, Enter(c));
    assert FrameInv(g, w.visited, x) && x.node in read;
    assert forall v | v in [c] :: v !in w.visited;
    NoRepeatsJoined(w.visited, [c]);
    assert y.w.visited == w.visited + [c] && Top(y.w).node == c;
    forall v | v in y.w.visited && v != root ensures EnteredFrom(g, read, v) {
      if v != c {
        assert EnteredFrom(g, read, v);
      }
    }
    forall i | 0 <= i <= k + 1
      ensures y.w.frames[i].node in y.w.visited && (y.w.frames[i].todo.Some? <==> y.w.frames[i].node in read)
    {
      if i <= k {
        assert w.frames[i].node in w.visited;
      } else {
        assert c in y.w.visited;
      }
    }
  }

  lemma EnterKeepsCover(z: System, c: Id, root: Id, early: set<Id>, read: set<Id>)
    requires WalkInv(z, root, early, read) && CanMove(z, Enter(c))
    ensures CoverInv(Moved(z, Enter(c)), early, read)
  {
    var (g, w) := (z.g, z.w);
    var k := |w.frames| - 1;
    var y := Moved(z, Enter(c));
    forall d | d in early && d in g.alive && g.parent[d] in read && d !in y.w.visited
      ensures IsToDo(y.w.frames, d)
    {
      assert y.w.visited[|w.visited|] == c && forall v | v in w.visited :: v in y.w.visited;
      var i :| 0 <= i <= k && w.frames[i].todo.Some? && d in w.frames[i].todo.value;
      assert y.w.frames[i].todo.Some? && d in y.w.frames[i].todo.value;
    }
  }

  lemma LeaveKeepsInv(z: System, root: Id, early: set<Id>, read: set<Id>)
    requires WalkInv(z, root, early, read) && CanMove(z, Leave)
    ensures WalkInv(Moved(z, Leave), root, early, read)
  {
    var (g, w) := (z.g, z.w);
    var k := |w.frames| - 1;
    var y := Moved(z, Leave);
    forall i | 0 <= i < k ensures FrameInv(g, w.visited, y.w.frames[i]) {
      assert FrameInv(g, w.visited, w.frames[i]);
    }
    forall i | 0 < i < k ensures Chained(g, y.w.frames, i) {
      assert Chained(g, w.frames, i);
    }
    forall d | d in early && d in g.alive && g.parent[d] in read && d !in w.visited
      ensures IsToDo(y.w.frames, d)
    {
      var i :| 0 <= i <= k && w.frames[i].todo.Some? && d in w.frames[i].todo.value;
      assert y.w.frames[i] == w.frames[i];
    }
  }

  // ---------------------------------------------------------------------------------------------
  // Whole walks
  // ---------------------------------------------------------------------------------------------

  lemma MoveKeepsInv(z: System, m: Move, root: Id, early: set<Id>, read: set<Id>) returns (read': set<Id>)
    requires WalkInv(z, root, early, read) && CanMove(z, m)
    ensures WalkInv(Moved(z, m), root, early, read')
  {
    read' := read;
    match m
    case Other(a) => OtherKeepsInv(z, a, root, early, read);
    case BeginRead => BeginKeepsInv(z, root, early, read);
    case ReadRegistry(found) =>
      read' := read + {Top(z.w).node};
      ReadKeepsStack(z, found, root, early, read);
      ReadKeepsVisits(z, found, root, early, read);
      ReadKeepsCover(z, found, root, early, read);
    case Enter(c) =>
      EnterKeepsStack(z, c, root, early, read);
      EnterKeepsVisits(z, c, root, early, read);
      EnterKeepsCover(z, c, root, early, read);
    case Leave => LeaveKeepsInv(z, root, early, read);
  }

  /** `y` is reached from `z` by the moves `ms`. */
  ghost predicate Reaches(z: System, ms: seq<Move>, y: System)
    decreases |ms|
  {
    if ms == [] then y == z
    else Inv(z.g) && CanMove(z, ms[0]) && Reaches(Moved(z, ms[0]), ms[1..], y)
  }

  lemma {:induction false} InvAlong(z: System, ms: seq<Move>, y: System, root: Id, early: set<Id>, read: set<Id>)
    returns (read': set<Id>)
    requires WalkInv(z, root, early, read) && Reaches(z, ms, y)
    ensures WalkInv(y, root, early, read')
    decreases |ms|
  {
    if ms == [] {
      read' := read;
    } else {
      var next := MoveKeepsInv(z, ms[0], root, early, read);
      read' := InvAlong(Moved(z, ms[0]), ms[1..], y, root, early, next);
    }
  }

  /** However the walk is interleaved with orderly linking and dying surfaces, at every moment it has
      visited no surface twice, and every surface it visited was given to it by its own parent. */
  lemma NoSurfaceIsVisitedTwice(g: Graph, root: Id, ms: seq<Move>, y: System)
    requires Inv(g) && Forest(g) && root in g.alive && Reaches(Start(g, root), ms, y)
    ensures NoRepeats(y.w.visited) && root in y.w.visited
    ensures forall x | x in y.w.visited && x != root :: x in y.g.parent && y.g.parent[x] in y.w.visited
  {
    StartInv(g, root);
    var read := InvAlong(Start(g, root), ms, y, root, Registered(g), {});
    forall x | x in y.w.visited && x != root ensures x in y.g.parent && y.g.parent[x] in y.w.visited {
      assert EnteredFrom(y.g, read, x);
    }
  }

  /** When the walk returns, it has visited every surface that was registered below the root before it
      started and whose chain up to the root is still live. */
  lemma NoSurvivorIsMissed(g: Graph, root: Id, ms: seq<Move>, y: System, x: Id)
    requires Inv(g) && Forest(g) && root in g.alive && Reaches(Start(g, root), ms, y)
    requires y.w.frames == [] && Below(y.g, Registered(g), root, x)
    ensures x in y.w.visited
  {
    StartInv(g, root);
    var read := InvAlong(Start(g, root), ms, y, root, Registered(g), {});
    var n: nat :| Hangs(y.g, Registered(g), root, x, n);
    SurvivorVisited(y, root, Registered(g), read, x, n);
  }

  lemma {:induction false} SurvivorVisited(y: System, root: Id, early: set<Id>, read: set<Id>, x: Id, n: nat)
    requires WalkInv(y, root, early, read) && y.w.frames == [] && Hangs(y.g, early, root, x, n)
    ensures x in y.w.visited
    decreases n
  {
    if n > 0 {
      SurvivorVisited(y, root, early, read, y.g.parent[x], n - 1);
    }
  }
}
