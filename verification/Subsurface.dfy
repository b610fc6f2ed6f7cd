/** How a sub-surface's place reaches the panel's child table.

    One child surface with the sub-surface objects made for it, the handlers they registered on it, and
    the panel backends its toplevel and its parent's toplevel may have. */
module Subsurface {
  import opened Wrappers
  import opened CommitState
  import P = PanelChildren

  /** A `wl_subsurface`. `committed` is a history: what the last commit found in `pending`. */
  datatype Object = Object(alive: bool, childId: nat, state: Stages<SubsurfaceState>, committed: SubsurfaceState)

  /** What runs, in order of registration, whenever the surface's current state is updated. */
  datatype Handler =
    | BufferUpdate
    | AddChildOnce(k: nat)
    | UpdateGeometry(k: nat)

  datatype Other = Other(target: Option<P.Target>, toplevel: Option<nat>)

  /** `others` are the other live surfaces, `items` the toplevels that are mapped with their backends,
      `added` a history of the objects whose handler called `add_child`. */
  datatype World = World(
    state: Stages<SurfaceState>,
    target: Option<P.Target>,
    parent: Option<nat>,
    toplevel: Option<nat>,
    objects: seq<Object>,
    handlers: seq<Handler>,
    others: map<nat, Other>,
    items: map<nat, P.Backend>,
    added: seq<nat>)
  {
    function Surface(): P.Surface {
      P.Surface(0, target)
    }

    predicate Alive(k: nat) {
      k < |objects| && objects[k].alive
    }

    /** The toplevel whose backend `panel_item` gives. */
    function PanelItem(t: Option<nat>): Option<nat> {
      if t.Some? && t.value in items then t else None
    }

    function ParentToplevel(): Option<nat> {
      if parent.Some? && parent.value in others then others[parent.value].toplevel else None
    }

    /** The surface a new child is under; under a cursor, or when the parent has no target or is gone,
        it is the toplevel. */
    function ParentId(): Option<nat> {
      if parent.Some? && parent.value in others && others[parent.value].target.Some?
         && others[parent.value].target.value.Child?
      then Some(others[parent.value].target.value.id)
      else None
    }

    function Size(): (nat, nat) {
      match state.current.buffer
      case Some(b) => (b.width, b.height)
      case None => (0, 0)
    }

    function Place(s: SubsurfaceState): P.Geometry {
      P.Geometry(s.x, s.y, Size().0, Size().1)
    }

    function ChildInfo(k: nat): P.ChildState
      requires k < |objects|
    {
      var s := objects[k].state.current;
      P.ChildState(objects[k].childId, ParentId(), Place(s), s.zOrder)
    }

    function Tell(t: nat, r: P.Request): World
      requires t in items
    {
      this.(items := items[t := P.Handled(items[t], r)])
    }
  }

  // ---------------------------------------------------------------------------------------------
  // Handlers
  // ---------------------------------------------------------------------------------------------

  /** Runs one handler; the answer is whether it stays registered. */
  function RunOne(w: World, h: Handler): (World, bool) {
    match h
    case BufferUpdate => (w, true)
    case AddChildOnce(k) =>
      var t := w.PanelItem(w.ParentToplevel());
      if !w.Alive(k) || t.None? || !HasValidBuffer(w.state.current) then (w, true)
      else
        (w.(toplevel := w.ParentToplevel(), added := w.added + [k]).Tell(t.value, P.Add(w.Surface(), w.ChildInfo(k))), false)
    case UpdateGeometry(k) =>
      var t := w.PanelItem(w.toplevel);
      if !w.Alive(k) || t.None? || !HasValidBuffer(w.state.current) then (w, true)
      else
        var s := w.objects[k].state.current;
        (w.Tell(t.value, P.Reposition(w.Surface(), w.Place(s))).Tell(t.value, P.UpdateZOrder(w.Surface(), s.zOrder)), true)
  }

  function RunHandlers(w: World, hs: seq<Handler>): (World, seq<Handler>)
    decreases |hs|
  {
    if hs == [] then (w, [])
    else
      var (v, keep) := RunOne(w, hs[0]);
      var (u, rest) := RunHandlers(v, hs[1..]);
      (u, if keep then [hs[0]] + rest else rest)
  }

  function HandlersRun(w: World): World {
    var (v, kept) := RunHandlers(w, w.handlers);
    v.(handlers := kept)
  }

  function ObjectCommitted(o: Object): Object {
    if o.alive then o.(state := Committed(SUBSURFACE, o.state), committed := o.state.pending) else o
  }

  function ObjectUpdated(o: Object): Object {
    if o.alive then o.(state := CurrentUpdated(SUBSURFACE, o.state)) else o
  }

  function Applied(w: World): World {
    w.(state := Committed(SURFACE, w.state),
       objects := seq(|w.objects|, i requires 0 <= i < |w.objects| => ObjectCommitted(w.objects[i])))
  }

  function MovedOn(w: World): World {
    w.(state := CurrentUpdated(SURFACE, w.state),
       objects := seq(|w.objects|, i requires 0 <= i < |w.objects| => ObjectUpdated(w.objects[i])))
  }

  /** The state the handlers of a commit find. */
  function BeforeHandlers(w: World, sync: bool): World {
    if sync then MovedOn(Applied(w)) else Applied(w)
  }

  // ---------------------------------------------------------------------------------------------
  // Steps
  // ---------------------------------------------------------------------------------------------

  datatype Step =
    | GetSubsurface(parent: nat, childId: nat)
    | SetPosition(k: nat, x: int, y: int)
    | PlaceBy(k: nat, sibling: Option<nat>, above: bool)
    | Attach(buffer: Option<Buffer>)
    | Commit(sync: bool)              // whether the commit takes the synchronized path
    | Update                          // a parent's recursive update, or `set_desync`
    | FrameEvent
    | Destroy(k: nat)
    | Vanish(k: nat)                  // the client is gone
    | OthersChange(others: map<nat, Other>)
    | ItemsChange(items: map<nat, P.Backend>)

  /** The z-order of a sibling as the parent's backend lists it, and 0 without one. */
  function SiblingZOrder(w: World, sibling: Option<nat>): int {
    var t := w.PanelItem(w.ParentToplevel());
    if sibling.Some? && t.Some? && sibling.value in w.items[t.value].children
    then w.items[t.value].children[sibling.value].1.zOrder
    else 0
  }

  predicate Enabled(w: World, a: Step) {
    match a
    case GetSubsurface(p, _) => p in w.others
    case SetPosition(k, _, _) => w.Alive(k)
    case PlaceBy(k, _, _) => w.Alive(k)
    case Destroy(k) => w.Alive(k)
    case Vanish(k) => w.Alive(k)
    case _ => true
  }

  function WithPending(w: World, k: nat, s: SubsurfaceState): World
    requires k < |w.objects|
  {
    w.(objects := w.objects[k := w.objects[k].(state := w.objects[k].state.(pending := s))])
  }

  function Created(w: World, p: nat, childId: nat): World
    requires p in w.others
  {
    var n := |w.objects|;
    w.(target := if w.target.None? then Some(P.Child(childId)) else w.target,
       parent := if w.parent.None? then Some(p) else w.parent,
       toplevel := w.others[p].toplevel,
       objects := w.objects + [Object(true, childId, Initial(SUBSURFACE, DEFAULT_SUBSURFACE), DEFAULT_SUBSURFACE)],
       handlers := w.handlers + [AddChildOnce(n), UpdateGeometry(n)])
  }

  function Next(w: World, a: Step): World
    requires Enabled(w, a)
  {
    match a
    case GetSubsurface(p, c) => Created(w, p, c)
    case SetPosition(k, x, y) => WithPending(w, k, w.objects[k].state.pending.(x := x, y := y))
    case PlaceBy(k, sibling, above) =>
      WithPending(w, k, w.objects[k].state.pending.(zOrder := SiblingZOrder(w, sibling) + if above then 1 else -1))
    case Attach(b) => w.(state := w.state.(pending := w.state.pending.(buffer := b)))
    case Commit(sync) => HandlersRun(BeforeHandlers(w, sync))
    case Update => HandlersRun(MovedOn(w))
    case FrameEvent => w.(state := w.state.(current := w.state.current.(frameCallbacks := [])))
    case Destroy(k) =>
      var t := w.PanelItem(w.ParentToplevel());
      var v := if t.Some? then w.Tell(t.value, P.Remove(w.Surface())) else w;
      v.(objects := w.objects[k := w.objects[k].(alive := false)])
    case Vanish(k) => w.(objects := w.objects[k := w.objects[k].(alive := false)])
    case OthersChange(m) => w.(others := m)
    case ItemsChange(m) => w.(items := m)
  }

  /** All a handler can change is the toplevel, the backends, and the record of additions. */
  ghost predicate SameButPanels(w: World, v: World) {
    v == w.(toplevel := v.toplevel, items := v.items, added := v.added) && v.items.Keys == w.items.Keys
  }

  /** `now` and `kept` are where a run over `all` that began in `was` stands after `i` handlers. */
  ghost predicate Progress(was: World, all: seq<Handler>, now: World, i: nat, kept: seq<Handler>)
    requires i <= |all|
  {
    var (v, rest) := RunHandlers(now, all[i..]);
    RunHandlers(was, all).0 == v && RunHandlers(was, all).1 == kept + rest
  }

  lemma ProgressStep(was: World, all: seq<Handler>, now: World, i: nat, kept: seq<Handler>)
    requires i < |all| && Progress(was, all, now, i, kept)
    ensures var (v, keep) := RunOne(now, all[i]);
            SameButPanels(now, v) && Progress(was, all, v, i + 1, if keep then kept + [all[i]] else kept)
  {
    var (v, keep) := RunOne(now, all[i]);
    assert all[i..][0] == all[i] && all[i..][1..] == all[i + 1..];
    var rest := RunHandlers(v, all[i + 1..]).1;
    assert kept + ([all[i]] + rest) == (kept + [all[i]]) + rest;
  }

  // ---------------------------------------------------------------------------------------------
  // The calls
  // ---------------------------------------------------------------------------------------------

  class ChildSurface {
    var state: Stages<SurfaceState>
    var target: Option<P.Target>
    var parent: Option<nat>
    var toplevel: Option<nat>
    var objects: seq<Object>
    var handlers: seq<Handler>
    var others: map<nat, Other>
    var items: map<nat, P.Backend>
    ghost var added: seq<nat>

    ghost function View(): World
      reads this
    {
      World(state, target, parent, toplevel, objects, handlers, others, items, added)
    }

    method GetSubsurface(p: nat, childId: nat)
      requires p in others
      modifies this
      ensures View() == Next(old(View()), Step.GetSubsurface(p, childId))
    {
      if target.None? {
        target := Some(P.Child(childId));
      }
      toplevel := others[p].toplevel;
      if parent.None? {
        parent := Some(p);
      }
      var k := |objects|;
      objects := objects + [Object(true, childId, Initial(SUBSURFACE, DEFAULT_SUBSURFACE), DEFAULT_SUBSURFACE)];
      handlers := handlers + [AddChildOnce(k)];
      handlers := handlers + [UpdateGeometry(k)];
      assert old(handlers) + [AddChildOnce(k)] + [UpdateGeometry(k)] == old(handlers) + [AddChildOnce(k), UpdateGeometry(k)];
    }

    method SetPosition(k: nat, x: int, y: int)
      requires k < |objects| && objects[k].alive
      modifies this`objects
      ensures View() == Next(old(View()), Step.SetPosition(k, x, y))
      ensures objects[k].state.pending.x == x && objects[k].state.pending.y == y
      ensures objects[k].state.pending.zOrder == old(objects[k].state.pending.zOrder)
    {
      var s := objects[k].state;
      objects := objects[k := objects[k].(state := s.(pending := s.pending.(x := x, y := y)))];
    }

    /** `place_above` and `place_below`: one off the z-order at which the parent's panel lists the sibling. */
    method PlaceBy(k: nat, sibling: Option<nat>, above: bool)
      requires k < |objects| && objects[k].alive
      modifies this`objects
      ensures View() == Next(old(View()), Step.PlaceBy(k, sibling, above))
      ensures objects[k].state.pending.x == old(objects[k].state.pending.x)
      ensures objects[k].state.pending.y == old(objects[k].state.pending.y)
    {
      var z: int := 0;
      if sibling.Some? && parent.Some? && parent.value in others {
        var t := others[parent.value].toplevel;
        if t.Some? && t.value in items && sibling.value in items[t.value].children {
          z := items[t.value].children[sibling.value].1.zOrder;
        }
      }
      var s := objects[k].state;
      objects := objects[k := objects[k].(state := s.(pending := s.pending.(zOrder := if above then z + 1 else z - 1)))];
    }

    method Destroy(k: nat)
      requires k < |objects| && objects[k].alive
      modifies this`objects, this`items
      ensures View() == Next(old(View()), Step.Destroy(k))
    {
      if parent.Some? && parent.value in others {
        var t := others[parent.value].toplevel;
        if t.Some? && t.value in items {
          items := items[t.value := P.Handled(items[t.value], P.Remove(P.Surface(0, target)))];
        }
      }
      objects := objects[k := objects[k].(alive := false)];
    }

    method AddChild(k: nat) returns (keep: bool)
      modifies this
      ensures (View(), keep) == RunOne(old(View()), AddChildOnce(k))
    {
      if k >= |objects| || !objects[k].alive {
        return true;
      }
      if parent.None? || parent.value !in others {
        return true;
      }
      var p := others[parent.value];
      if p.toplevel.None? || p.toplevel.value !in items {
        return true;
      }
      if HasValidBuffer(state.current) {
        toplevel := p.toplevel;
        var id := if p.target.Some? && p.target.value.Child? then Some(p.target.value.id) else None;
        var s := objects[k].state.current;
        var g := P.Geometry(s.x, s.y, state.current.buffer.value.width, state.current.buffer.value.height);
        var info := P.ChildState(objects[k].childId, id, g, s.zOrder);
        items := items[p.toplevel.value := P.Handled(items[p.toplevel.value], P.Add(P.Surface(0, target), info))];
        added := added + [k];
        return false;
      }
      return true;
    }

    method UpdateGeometryOf(k: nat)
      modifies this
      ensures (View(), true) == RunOne(old(View()), UpdateGeometry(k))
    {
      if k >= |objects| || !objects[k].alive {
        return;
      }
      if HasValidBuffer(state.current) && toplevel.Some? && toplevel.value in items {
        var s := objects[k].state.current;
        var g := P.Geometry(s.x, s.y, state.current.buffer.value.width, state.current.buffer.value.height);
        var t := toplevel.value;
        items := items[t := P.Handled(items[t], P.Reposition(P.Surface(0, target), g))];
        items := items[t := P.Handled(items[t], P.UpdateZOrder(P.Surface(0, target), s.zOrder))];
      }
    }

    method RunHandler(h: Handler) returns (keep: bool)
      modifies this
      ensures (View(), keep) == RunOne(old(View()), h)
    {
      keep := true;
      match h {
        case BufferUpdate =>
        case AddChildOnce(k) => keep := AddChild(k);
        case UpdateGeometry(k) => UpdateGeometryOf(k);
      }
    }

    method RunUpdatedStateHandlers()
      modifies this
      ensures View() == HandlersRun(old(View()))
    {
      ghost var was := View();
      var all := handlers;
      var kept: seq<Handler> := [];
      var i := 0;
      assert all[0..] == all && [] + RunHandlers(was, all).1 == RunHandlers(was, all).1;
      while i < |all|
        invariant 0 <= i <= |all| && SameButPanels(was, View()) && Progress(was, all, View(), i, kept)
      {
        ProgressStep(was, all, View(), i, kept);
        var keep := RunHandler(all[i]);
        if keep {
          kept := kept + [all[i]];
        }
        i := i + 1;
      }
      assert all[i..] == [] && kept + [] == kept;
      handlers := kept;
    }

    method OnCommit(sync: bool)
      modifies this
      ensures View() == Next(old(View()), Step.Commit(sync))
    {
      state := Committed(SURFACE, state);
      ghost var was := objects;
      var i := 0;
      while i < |objects|
        invariant 0 <= i <= |objects| == |was|
        invariant forall j | 0 <= j < |was| :: objects[j] == if j < i then ObjectCommitted(was[j]) else was[j]
        invariant View() == old(View()).(state := state, objects := objects) && state == Committed(SURFACE, old(state))
      {
        if objects[i].alive {
          var s := objects[i].state;
          objects := objects[i := objects[i].(state := Committed(SUBSURFACE, s), committed := s.pending)];
        }
        i := i + 1;
      }
      assert View() == Applied(old(View()));
      if sync {
        MoveOn();
      }
      assert View() == BeforeHandlers(old(View()), sync);
      RunUpdatedStateHandlers();
    }

    method MoveOn()
      modifies this
      ensures View() == MovedOn(old(View()))
    {
      state := CurrentUpdated(SURFACE, state);
      ghost var was := objects;
      var i := 0;
      while i < |objects|
        invariant 0 <= i <= |objects| == |was|
        invariant forall j | 0 <= j < |was| :: objects[j] == if j < i then ObjectUpdated(was[j]) else was[j]
        invariant View() == old(View()).(state := state, objects := objects) && state == CurrentUpdated(SURFACE, old(state))
      {
        if objects[i].alive {
          objects := objects[i := objects[i].(state := CurrentUpdated(SUBSURFACE, objects[i].state))];
        }
        i := i + 1;
      }
    }
  }

  // ---------------------------------------------------------------------------------------------
  // What running the handlers keeps
  // ---------------------------------------------------------------------------------------------

  lemma {:induction false} RunKeeps(w: World, hs: seq<Handler>)
    ensures SameButPanels(w, RunHandlers(w, hs).0)
    decreases |hs|
  {
    if hs != [] {
      RunKeeps(RunOne(w, hs[0]).0, hs[1..]);
    }
  }

  lemma {:induction false} RunAppend(w: World, a: seq<Handler>, b: seq<Handler>)
    ensures RunHandlers(w, a + b).0 == RunHandlers(RunHandlers(w, a).0, b).0
    decreases |a|
  {
    if a == [] {
      assert a + b == b;
    } else {
      assert (a + b)[0] == a[0] && (a + b)[1..] == a[1..] + b;
      RunAppend(RunOne(w, a[0]).0, a[1..], b);
    }
  }

  /** A run, seen from one of its handlers. */
  lemma SplitRun(w: World, at: nat)
    requires at < |w.handlers|
    ensures var v := RunHandlers(w, w.handlers[..at]).0;
            && SameButPanels(w, v)
            && RunHandlers(w, w.handlers).0 == RunHandlers(RunOne(v, w.handlers[at]).0, w.handlers[at + 1..]).0
  {
    var (pre, h, post) := (w.handlers[..at], [w.handlers[at]], w.handlers[at + 1..]);
    assert w.handlers == pre + (h + post);
    RunAppend(w, pre, h + post);
    RunKeeps(w, pre);
    var v := RunHandlers(w, pre).0;
    assert (h + post)[1..] == post;
  }

  predicate Idle(w: World, h: Handler) {
    match h
    case BufferUpdate => true
    case AddChildOnce(k) => !w.Alive(k)
    case UpdateGeometry(k) => !w.Alive(k)
  }

  lemma {:induction false} IdleRun(w: World, hs: seq<Handler>)
    requires forall i | 0 <= i < |hs| :: Idle(w, hs[i])
    ensures RunHandlers(w, hs) == (w, hs)
    decreases |hs|
  {
    if hs != [] {
      assert Idle(w, hs[0]);
      forall i | 0 <= i < |hs[1..]| ensures Idle(w, hs[1..][i]) {
        assert hs[1..][i] == hs[i + 1];
      }
      IdleRun(w, hs[1..]);
      assert RunOne(w, hs[0]) == (w, true) && [hs[0]] + hs[1..] == hs;
    }
  }

  // ---------------------------------------------------------------------------------------------
  // Placement
  // ---------------------------------------------------------------------------------------------

  /** If the surface is shown in a panel and listed there, it is listed at `s`, with the size of its
      current buffer. */
  ghost predicate PlacedAt(w: World, s: SubsurfaceState) {
    var (t, id) := (w.PanelItem(w.toplevel), P.ChildId(w.Surface()));
    HasValidBuffer(w.state.current) && t.Some? && id.Some? && id.value in w.items[t.value].children ==>
      var info := w.items[t.value].children[id.value].1;
      info.geometry == w.Place(s) && info.zOrder == s.zOrder
  }

  lemma GeometryPlaces(w: World, k: nat)
    requires w.Alive(k)
    ensures PlacedAt(RunOne(w, UpdateGeometry(k)).0, w.objects[k].state.current)
  {
  }

  /** Handler `at` is the geometry handler of a live object, and every later one's object is gone. */
  ghost predicate LastLive(w: World, at: nat, k: nat) {
    && at < |w.handlers| && w.handlers[at] == UpdateGeometry(k) && w.Alive(k)
    && forall i | at < i < |w.handlers| :: Idle(w, w.handlers[i])
  }

  lemma HandlersPlace(w: World, at: nat, k: nat)
    requires LastLive(w, at, k)
    ensures PlacedAt(HandlersRun(w), w.objects[k].state.current)
  {
    SplitRun(w, at);
    var v := RunHandlers(w, w.handlers[..at]).0;
    var (u, post) := (RunOne(v, UpdateGeometry(k)).0, w.handlers[at + 1..]);
    assert u.objects == w.objects;
    forall i | 0 <= i < |post| ensures Idle(u, post[i]) {
      assert Idle(w, w.handlers[at + 1 + i]);
    }
    IdleRun(u, post);
    GeometryPlaces(v, k);
    assert HandlersRun(w) == u.(handlers := HandlersRun(w).handlers);
  }

  // ---------------------------------------------------------------------------------------------
  // Whole runs
  // ---------------------------------------------------------------------------------------------

  /** Registration order: the buffer update, then two handlers for each object. */
  function Rank(h: Handler): nat {
    match h
    case BufferUpdate => 0
    case AddChildOnce(k) => 2 * k + 1
    case UpdateGeometry(k) => 2 * k + 2
  }

  ghost predicate Ordered(hs: seq<Handler>) {
    forall i, j | 0 <= i < j < |hs| :: Rank(hs[i]) < Rank(hs[j])
  }

  /** Nothing yet registered was added before, and nothing was added twice. */
  ghost predicate AddedOnce(hs: seq<Handler>, added: seq<nat>) {
    && (forall h | h in hs && h.AddChildOnce? :: h.k !in added)
    && (forall i, j | 0 <= i < j < |added| :: added[i] != added[j])
  }

  ghost predicate Registered(w: World) {
    && Ordered(w.handlers)
    && (forall h | h in w.handlers :: Rank(h) <= 2 * |w.objects|)
    && (forall k: nat | k < |w.objects| :: UpdateGeometry(k) in w.handlers)
    && (forall k | k in w.added :: k < |w.objects|)
  }

  ghost predicate Settled(w: World) {
    forall k | 0 <= k < |w.objects| ::
      w.objects[k].state.current == w.objects[k].state.applied == w.objects[k].committed
  }

  ghost predicate FirstNames(w: World) {
    if w.objects == [] then w.target.None? else w.target == Some(P.Child(w.objects[0].childId))
  }

  ghost predicate Inv(w: World) {
    Registered(w) && AddedOnce(w.handlers, w.added) && Settled(w) && FirstNames(w)
  }

  lemma TailIsHigher(hs: seq<Handler>)
    requires Ordered(hs) && hs != []
    ensures Ordered(hs[1..])
    ensures forall h | h in hs[1..] :: h in hs && Rank(hs[0]) < Rank(h)
    ensures forall h | h in hs && h != hs[0] :: h in hs[1..]
  {
    forall i, j | 0 <= i < j < |hs[1..]| ensures Rank(hs[1..][i]) < Rank(hs[1..][j]) {
      assert Rank(hs[i + 1]) < Rank(hs[j + 1]);
    }
    forall h | h in hs[1..] ensures h in hs && Rank(hs[0]) < Rank(h) {
      var i :| 0 <= i < |hs[1..]| && hs[1..][i] == h;
      assert hs[i + 1] == h;
    }
    assert hs == [hs[0]] + hs[1..];
  }

  lemma ConsOrdered(h: Handler, hs: seq<Handler>)
    requires Ordered(hs) && forall x | x in hs :: Rank(h) < Rank(x)
    ensures Ordered([h] + hs)
  {
    var all := [h] + hs;
    forall i, j | 0 <= i < j < |all| ensures Rank(all[i]) < Rank(all[j]) {
      assert all[j] == hs[j - 1] && hs[j - 1] in hs;
    }
  }

  /** What stays registered is in order, and only handlers that have added their child are dropped. */
  lemma {:induction false} RunSorts(w: World, hs: seq<Handler>)
    requires Ordered(hs)
    ensures var kept := RunHandlers(w, hs).1;
            && Ordered(kept)
            && (forall h | h in kept :: h in hs)
            && (forall h | h in hs && !h.AddChildOnce? :: h in kept)
    decreases |hs|
  {
    if hs != [] {
      TailIsHigher(hs);
      var (v, keep) := RunOne(w, hs[0]);
      RunSorts(v, hs[1..]);
      if keep {
        ConsOrdered(hs[0], RunHandlers(v, hs[1..]).1);
      }
    }
  }

  lemma OneAdds(w: World, h: Handler, hs: seq<Handler>)
    requires AddedOnce([h] + hs, w.added) && h !in hs
    ensures AddedOnce(hs, RunOne(w, h).0.added)
    ensures forall k | k in RunOne(w, h).0.added :: k in w.added || h == AddChildOnce(k)
    ensures RunOne(w, h).1 && h.AddChildOnce? ==> h.k !in RunOne(w, h).0.added
  {
    assert forall x | x in hs :: x in [h] + hs;
    assert h in [h] + hs;
  }

  /** Only handlers that ran add, each its own child, and those are no longer registered. */
  lemma {:induction false} RunAddsOnce(w: World, hs: seq<Handler>)
    requires Ordered(hs) && AddedOnce(hs, w.added)
    ensures var (v, kept) := RunHandlers(w, hs);
            && AddedOnce(kept, v.added)
            && (forall k | k in v.added :: k in w.added || AddChildOnce(k) in hs)
    decreases |hs|
  {
    if hs != [] {
      TailIsHigher(hs);
      assert hs == [hs[0]] + hs[1..];
      OneAdds(w, hs[0], hs[1..]);
      var (v, keep) := RunOne(w, hs[0]);
      RunAddsOnce(v, hs[1..]);
      var (u, kept) := RunHandlers(v, hs[1..]);
      assert keep && hs[0].AddChildOnce? ==> hs[0] !in hs[1..] && hs[0].k !in u.added;
    }
  }

  ghost predicate Start(w: World) {
    && w.state == Initial(SURFACE, DEFAULT_SURFACE) && w.target.None? && w.parent.None? && w.toplevel.None?
    && w.objects == [] && w.handlers == [BufferUpdate] && w.added == []
  }

  ghost predicate Reachable(w: World, steps: seq<Step>)
    decreases |steps|
  {
    if steps == [] then Start(w)
    else
      var last := |steps| - 1;
      exists v :: Reachable(v, steps[..last]) && Enabled(v, steps[last]) && w == Next(v, steps[last])
  }

  lemma HandlersKeepInv(w: World)
    requires Inv(w)
    ensures Inv(HandlersRun(w))
  {
    RunSorts(w, w.handlers);
    RunAddsOnce(w, w.handlers);
    RunKeeps(w, w.handlers);
    var v := HandlersRun(w);
    forall k | k in v.added ensures k < |w.objects| {
      if k !in w.added {
        assert Rank(AddChildOnce(k)) <= 2 * |w.objects|;
      }
    }
  }

  lemma CreatedKeepsInv(w: World, p: nat, c: nat)
    requires Inv(w) && p in w.others
    ensures Inv(Created(w, p, c))
  {
    var v := Created(w, p, c);
    var n := |w.objects|;
    forall i, j | 0 <= i < j < |v.handlers| ensures Rank(v.handlers[i]) < Rank(v.handlers[j]) {
      if i < |w.handlers| {
        assert w.handlers[i] in w.handlers;
      }
    }
    assert v.handlers[|w.handlers| + 1] == UpdateGeometry(n);
    forall k: nat | k < |v.objects| ensures UpdateGeometry(k) in v.handlers {
      if k < n {
        assert UpdateGeometry(k) in w.handlers;
      }
    }
  }

  lemma CommitKeepsInv(w: World, sync: bool)
    requires Inv(w)
    ensures Inv(Next(w, Step.Commit(sync)))
  {
    HandlersKeepInv(BeforeHandlers(w, sync));
  }

  lemma UpdateKeepsInv(w: World)
    requires Inv(w)
    ensures Inv(Next(w, Step.Update))
  {
    HandlersKeepInv(MovedOn(w));
  }

  lemma PendingKeepsInv(w: World, k: nat, p: SubsurfaceState)
    requires Inv(w) && k < |w.objects|
    ensures Inv(WithPending(w, k, p))
  {
  }

  lemma StepKeepsInv(w: World, a: Step)
    requires Inv(w) && Enabled(w, a)
    ensures Inv(Next(w, a))
  {
    match a
    case GetSubsurface(p, c) => CreatedKeepsInv(w, p, c);
    case Commit(sync) => CommitKeepsInv(w, sync);
    case Update => UpdateKeepsInv(w);
    case SetPosition(k, x, y) => PendingKeepsInv(w, k, w.objects[k].state.pending.(x := x, y := y));
    case PlaceBy(k, sibling, above) =>
      PendingKeepsInv(w, k, w.objects[k].state.pending.(zOrder := SiblingZOrder(w, sibling) + if above then 1 else -1));
    case _ =>
  }

  lemma {:induction false} EveryRunKeepsInv(w: World, steps: seq<Step>)
    requires Reachable(w, steps)
    ensures Inv(w)
    decreases |steps|
  {
    if steps != [] {
      var last := |steps| - 1;
      var v :| Reachable(v, steps[..last]) && Enabled(v, steps[last]) && w == Next(v, steps[last]);
      EveryRunKeepsInv(v, steps[..last]);
      StepKeepsInv(v, steps[last]);
    }
  }

  /** Each object's handler adds its child at most once in any run. */
  lemma EachObjectAddsAtMostOnce(w: World, steps: seq<Step>)
    requires Reachable(w, steps)
    ensures forall i, j | 0 <= i < j < |w.added| :: w.added[i] != w.added[j]
  {
    EveryRunKeepsInv(w, steps);
  }

  predicate Newest(w: World, k: nat) {
    w.Alive(k) && forall j | k < j < |w.objects| :: !w.objects[j].alive
  }

  lemma NewestIsLastLive(w: World, k: nat) returns (at: nat)
    requires Registered(w) && Newest(w, k)
    ensures LastLive(w, at, k)
  {
    assert UpdateGeometry(k) in w.handlers;
    at :| 0 <= at < |w.handlers| && w.handlers[at] == UpdateGeometry(k);
    forall i | at < i < |w.handlers| ensures Idle(w, w.handlers[i]) {
      assert Rank(w.handlers[at]) < Rank(w.handlers[i]);
      assert w.handlers[i] in w.handlers;
    }
  }

  lemma CommitMoves(w: World, k: nat, sync: bool)
    requires Registered(w) && Newest(w, k)
    ensures var v := BeforeHandlers(w, sync);
            && Registered(v) && Newest(v, k)
            && v.objects[k].state.current == w.objects[k].state.pending
            && v.state.current.buffer == w.state.pending.buffer
            && v.handlers == w.handlers && v.Surface() == w.Surface()
            && v.PanelItem(v.ParentToplevel()) == w.PanelItem(w.ParentToplevel())
  {
  }

  lemma UpdateMoves(w: World, k: nat)
    requires Registered(w) && Settled(w) && Newest(w, k)
    ensures var v := MovedOn(w); Registered(v) && Newest(v, k) && v.objects[k].state.current == w.objects[k].committed
  {
  }

  lemma RunPlaces(v: World, k: nat)
    requires Registered(v) && Newest(v, k)
    ensures PlacedAt(HandlersRun(v), v.objects[k].state.current)
    ensures HandlersRun(v).state == v.state
  {
    var at := NewestIsLastLive(v, k);
    HandlersPlace(v, at, k);
    RunKeeps(v, v.handlers);
  }

  /** In every run, after a commit on either path, the child entry holds what the commit found pending
      in the newest live object, and the size of the buffer just committed. */
  lemma CommitPlaces(w: World, steps: seq<Step>, k: nat, sync: bool)
    requires Reachable(w, steps) && Newest(w, k)
    ensures PlacedAt(Next(w, Step.Commit(sync)), w.objects[k].state.pending)
    ensures Next(w, Step.Commit(sync)).state.current.buffer == w.state.pending.buffer
  {
    IsRegistered(w, steps);
    CommitMoves(w, k, sync);
    RunPlaces(BeforeHandlers(w, sync), k);
  }

  /** An update without a commit of its own places it where the last commit put it. */
  lemma UpdatePlaces(w: World, steps: seq<Step>, k: nat)
    requires Reachable(w, steps) && Newest(w, k)
    ensures PlacedAt(Next(w, Step.Update), w.objects[k].committed)
  {
    IsRegistered(w, steps);
    UpdateMoves(w, k);
    RunPlaces(MovedOn(w), k);
  }

  lemma IsRegistered(w: World, steps: seq<Step>)
    requires Reachable(w, steps)
    ensures Registered(w) && Settled(w) && FirstNames(w)
  {
    EveryRunKeepsInv(w, steps);
  }

  // ---------------------------------------------------------------------------------------------
  // The first commit with a buffer
  // ---------------------------------------------------------------------------------------------

  /** The surface is listed in the panel it is shown in. */
  ghost predicate Listed(w: World) {
    var (t, id) := (w.PanelItem(w.toplevel), P.ChildId(w.Surface()));
    t.Some? && id.Some? && id.value in w.items[t.value].children
  }

  ghost predicate ListedByParent(w: World) {
    w.toplevel == w.ParentToplevel() && Listed(w)
  }

  lemma {:induction false} RunKeepsListed(w: World, hs: seq<Handler>)
    requires ListedByParent(w)
    ensures ListedByParent(RunHandlers(w, hs).0)
    decreases |hs|
  {
    if hs != [] {
      RunKeepsListed(RunOne(w, hs[0]).0, hs[1..]);
    }
  }

  /** A registered handler of a live object, with a panel to add to and a buffer to show. */
  ghost predicate Ready(w: World, k: nat) {
    && AddChildOnce(k) in w.handlers && w.Alive(k)
    && w.PanelItem(w.ParentToplevel()).Some? && P.ChildId(w.Surface()).Some? && HasValidBuffer(w.state.current)
  }

  lemma HandlersList(w: World, k: nat)
    requires Ready(w, k)
    ensures Listed(HandlersRun(w))
  {
    var at :| 0 <= at < |w.handlers| && w.handlers[at] == AddChildOnce(k);
    SplitRun(w, at);
    var v := RunHandlers(w, w.handlers[..at]).0;
    var (u, post) := (RunOne(v, AddChildOnce(k)).0, w.handlers[at + 1..]);
    assert ListedByParent(u);
    RunKeepsListed(u, post);
    assert HandlersRun(w) == RunHandlers(u, post).0.(handlers := HandlersRun(w).handlers);
  }

  lemma HasTarget(w: World, k: nat)
    requires FirstNames(w) && k < |w.objects|
    ensures P.ChildId(w.Surface()).Some?
  {
  }

  /** The commit that first finds both a buffer and the parent's panel lists the surface there, at the
      committed place. */
  lemma FirstCommitShows(w: World, steps: seq<Step>, k: nat, sync: bool)
    requires Reachable(w, steps) && Newest(w, k) && AddChildOnce(k) in w.handlers
    requires w.PanelItem(w.ParentToplevel()).Some? && HasValidBuffer(w.state.pending)
    ensures Listed(Next(w, Step.Commit(sync)))
    ensures PlacedAt(Next(w, Step.Commit(sync)), w.objects[k].state.pending)
  {
    IsRegistered(w, steps);
    CommitMoves(w, k, sync);
    HasTarget(w, k);
    HandlersList(BeforeHandlers(w, sync), k);
    CommitPlaces(w, steps, k, sync);
  }

  /** A commit now would let the handler of object `k` add. */
  predicate CanList(w: World, k: nat) {
    && AddChildOnce(k) in w.handlers && w.Alive(k)
    && w.PanelItem(w.ParentToplevel()).Some? && HasValidBuffer(w.state.pending)
  }

  /** A handler that does not add as things are. */
  predicate AddsNothing(w: World, h: Handler) {
    h.AddChildOnce? ==> !w.Alive(h.k) || w.PanelItem(w.ParentToplevel()).None? || !HasValidBuffer(w.state.current)
  }

  /** Where the surface is listed, and where it is shown, is the same. */
  ghost predicate SameListing(w: World, v: World) {
    && v.toplevel == w.toplevel && v.target == w.target && v.items.Keys == w.items.Keys
    && forall t, id | t in w.items :: id in v.items[t].children <==> id in w.items[t].children
  }

  lemma OneKeepsListing(w: World, h: Handler)
    requires AddsNothing(w, h)
    ensures SameListing(w, RunOne(w, h).0)
  {
  }

  lemma {:induction false} RunKeepsListing(w: World, hs: seq<Handler>)
    requires forall h | h in hs :: AddsNothing(w, h)
    ensures SameListing(w, RunHandlers(w, hs).0)
    decreases |hs|
  {
    if hs != [] {
      OneKeepsListing(w, hs[0]);
      var v := RunOne(w, hs[0]).0;
      forall h | h in hs[1..] ensures AddsNothing(v, h) {
        assert h in hs && AddsNothing(w, h);
      }
      RunKeepsListing(v, hs[1..]);
    }
  }

  lemma CommitOnlyApplies(w: World, sync: bool)
    ensures var u := BeforeHandlers(w, sync);
            && u == w.(state := u.state, objects := u.objects)
            && (forall k: nat :: u.Alive(k) <==> w.Alive(k))
            && (HasValidBuffer(u.state.current) <==> HasValidBuffer(w.state.pending))
  {
  }

  lemma CommitKeepsListing(w: World, sync: bool)
    requires forall k :: !CanList(w, k)
    ensures Listed(Next(w, Step.Commit(sync))) <==> Listed(w)
  {
    var u := BeforeHandlers(w, sync);
    CommitOnlyApplies(w, sync);
    forall h | h in u.handlers ensures AddsNothing(u, h) {
      assert h.AddChildOnce? ==> !CanList(w, h.k);
    }
    RunKeepsListing(u, u.handlers);
  }

  lemma CommitLists(w: World, k: nat, sync: bool)
    requires FirstNames(w) && CanList(w, k)
    ensures Listed(Next(w, Step.Commit(sync)))
  {
    CommitOnlyApplies(w, sync);
    HasTarget(w, k);
    HandlersList(BeforeHandlers(w, sync), k);
  }

  /** A commit leaves the surface listed exactly when it was, or when a live object's handler that has not
      added yet finds the parent's panel and a valid buffer. */
  lemma CommitListsIff(w: World, steps: seq<Step>, sync: bool)
    requires Reachable(w, steps)
    ensures Listed(Next(w, Step.Commit(sync))) <==> Listed(w) || exists k :: CanList(w, k)
  {
    IsRegistered(w, steps);
    if k :| CanList(w, k) {
      CommitLists(w, k, sync);
    } else {
      CommitKeepsListing(w, sync);
    }
  }

  /** No live object's handler is left to add. */
  ghost predicate NoneLeftToAdd(w: World) {
    forall k | AddChildOnce(k) in w.handlers :: !w.Alive(k)
  }

  /** No backend lists the surface. */
  predicate Unlisted(target: Option<P.Target>, items: map<nat, P.Backend>) {
    var id := P.ChildId(P.Surface(0, target));
    id.Some? ==> forall t | t in items :: id.value !in items[t].children
  }

  /** Anything but a new sub-surface object, or a backend that lists the surface from elsewhere. */
  predicate ListsNothing(w: World, a: Step) {
    !a.GetSubsurface? && (a.ItemsChange? ==> Unlisted(w.target, a.items))
  }

  lemma HandlersKeepUnlisted(w: World)
    requires NoneLeftToAdd(w) && Unlisted(w.target, w.items) && Ordered(w.handlers)
    ensures var v := HandlersRun(w);
            NoneLeftToAdd(v) && Unlisted(v.target, v.items) && v.target == w.target && Ordered(v.handlers)
  {
    RunKeepsListing(w, w.handlers);
    RunKeeps(w, w.handlers);
    RunSorts(w, w.handlers);
  }

  lemma StepKeepsUnlisted(w: World, a: Step)
    requires NoneLeftToAdd(w) && Unlisted(w.target, w.items) && Ordered(w.handlers) && Enabled(w, a) && ListsNothing(w, a)
    ensures var v := Next(w, a);
            NoneLeftToAdd(v) && Unlisted(v.target, v.items) && v.target == w.target && Ordered(v.handlers)
  {
    match a
    case Commit(sync) => HandlersKeepUnlisted(BeforeHandlers(w, sync));
    case Update => HandlersKeepUnlisted(MovedOn(w));
    case _ =>
  }

  /** `v` is reached from `w` by `more`, without a new sub-surface object. */
  ghost predicate RunFrom(w: World, more: seq<Step>, v: World)
    decreases |more|
  {
    if more == [] then v == w
    else Enabled(w, more[0]) && ListsNothing(w, more[0]) && RunFrom(Next(w, more[0]), more[1..], v)
  }

  lemma {:induction false} StaysUnlisted(w: World, more: seq<Step>, v: World)
    requires NoneLeftToAdd(w) && Unlisted(w.target, w.items) && Ordered(w.handlers) && RunFrom(w, more, v)
    ensures !Listed(v)
    decreases |more|
  {
    if more != [] {
      StepKeepsUnlisted(w, more[0]);
      StaysUnlisted(Next(w, more[0]), more[1..], v);
    }
  }

  /** When a panel is replaced by one that does not list the surface, and each live object has added once,
      no commit or other request ever lists it in the new one: only a new sub-surface object can. */
  lemma ReplacedPanelNeverListsIt(w: World, steps: seq<Step>, items: map<nat, P.Backend>, more: seq<Step>, v: World)
    requires Reachable(w, steps) && NoneLeftToAdd(w) && Unlisted(w.target, items)
    requires RunFrom(Next(w, ItemsChange(items)), more, v)
    ensures !Listed(v)
  {
    IsRegistered(w, steps);
    StaysUnlisted(Next(w, ItemsChange(items)), more, v);
  }

  /** A child state carries its surface's own id exactly when the object drew the id that the surface's
      first object drew: only the first one names the surface. */
  lemma OwnIdIff(w: World, steps: seq<Step>, k: nat)
    requires Reachable(w, steps) && k < |w.objects|
    ensures P.OneRoleObject(P.Add(w.Surface(), w.ChildInfo(k))) <==> w.objects[k].childId == w.objects[0].childId
  {
    EveryRunKeepsInv(w, steps);
  }

  // ---------------------------------------------------------------------------------------------
  // Above and below a sibling
  // ---------------------------------------------------------------------------------------------

  /** Panel `t` lists child `id` at z-order `z`. */
  predicate ListedAt(w: World, t: nat, id: nat, z: int) {
    t in w.items && id in w.items[t].children && w.items[t].children[id].1.zOrder == z
  }

  /** A surface's handlers leave every other child where it is. */
  lemma {:induction false} RunKeepsOthers(w: World, hs: seq<Handler>, t: nat, id: nat, z: int)
    requires ListedAt(w, t, id, z) && P.ChildId(w.Surface()) != Some(id)
    ensures ListedAt(RunHandlers(w, hs).0, t, id, z)
    decreases |hs|
  {
    if hs != [] {
      var v := RunOne(w, hs[0]).0;
      assert ListedAt(v, t, id, z) && v.Surface() == w.Surface();
      RunKeepsOthers(v, hs[1..], t, id, z);
    }
  }

  lemma PlacedWorld(w: World, steps: seq<Step>, k: nat, sibling: nat, above: bool) returns (more: seq<Step>)
    requires Reachable(w, steps) && Newest(w, k)
    ensures var v := Next(w, PlaceBy(k, Some(sibling), above));
            && Reachable(v, more) && Newest(v, k)
            && v == w.(objects := v.objects)
            && v.objects[k].state.pending.zOrder == SiblingZOrder(w, Some(sibling)) + if above then 1 else -1
  {
    more := steps + [PlaceBy(k, Some(sibling), above)];
    assert more[..|more| - 1] == steps;
  }

  lemma CommitKeepsOthers(v: World, sync: bool, t: nat, id: nat, z: int)
    requires ListedAt(v, t, id, z) && P.ChildId(v.Surface()) != Some(id)
    ensures ListedAt(Next(v, Step.Commit(sync)), t, id, z)
  {
    var u := BeforeHandlers(v, sync);
    assert ListedAt(u, t, id, z) && u.Surface() == v.Surface();
    RunKeepsOthers(u, u.handlers, t, id, z);
  }

  lemma ListedWhenPlaced(v: World, s: SubsurfaceState)
    requires PlacedAt(v, s) && Listed(v) && HasValidBuffer(v.state.current)
    ensures ListedAt(v, v.toplevel.value, P.ChildId(v.Surface()).value, s.zOrder)
  {
  }

  /** After `place_above` or `place_below` and a commit, a surface that is listed beside its sibling is
      listed next above or next below where the sibling still is. */
  lemma PlacedBesideSibling(w: World, steps: seq<Step>, k: nat, sibling: nat, above: bool, sync: bool, z: int)
    requires Reachable(w, steps) && Newest(w, k) && HasValidBuffer(w.state.pending)
    requires w.PanelItem(w.ParentToplevel()).Some? && ListedAt(w, w.ParentToplevel().value, sibling, z)
    requires P.ChildId(w.Surface()) != Some(sibling)
    ensures var v := Next(Next(w, PlaceBy(k, Some(sibling), above)), Step.Commit(sync));
            && ListedAt(v, w.ParentToplevel().value, sibling, z)
            && (Listed(v) ==> ListedAt(v, v.toplevel.value, P.ChildId(v.Surface()).value, z + if above then 1 else -1))
  {
    var v := Next(w, PlaceBy(k, Some(sibling), above));
    var more := PlacedWorld(w, steps, k, sibling, above);
    CommitPlaces(v, more, k, sync);
    CommitKeepsOthers(v, sync, w.ParentToplevel().value, sibling, z);
    if Listed(Next(v, Step.Commit(sync))) {
      ListedWhenPlaced(Next(v, Step.Commit(sync)), v.objects[k].state.pending);
    }
  }
}
