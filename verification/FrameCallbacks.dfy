/** The life of a frame callback, from `wl_surface.frame` to `wl_callback.done`.

    A callback is pushed on `pending`, moved by a commit, taken out of `current` by the surface's
    frame task, sent in a batch to its client's queue and finished, one by one, by the dispatch loop.
    The frame tasks and the dispatch loop interleave; taking and sending are separate steps. */
module FrameCallbacks {
  import opened Wrappers
  import opened CommitState

  datatype Message = Frame(callbacks: seq<Callback>) | OtherMessage

  /** One surface's buffer, and what its frame task took but did not send yet. */
  datatype Cell = Cell(stages: Stages<SurfaceState>, taken: Option<seq<Callback>>)

  /** `dispatching` is the rest of the batch the dispatch loop is working on. `requested` and `done`
      are histories: what the client asked for and what it was told is finished. */
  datatype World = World(
    connected: bool,
    born: set<nat>,
    cells: map<nat, Cell>,
    queue: seq<Message>,
    dispatching: seq<Callback>,
    done: seq<Callback>,
    requested: seq<Callback>)

  datatype Step =
    | NewSurface(s: nat)
    | RequestFrame(s: nat, id: nat)
    | EditPending(s: nat, edited: SurfaceState)
    | CommitSurface(s: nat)
    | UpdateCurrentOf(s: nat)
    | TakeFrame(s: nat)
    | SendFrame(s: nat)
    | EnqueueOther
    | Dequeue
    | FinishOne
    | DropSurface(s: nat)
    | Disconnect

  const START := World(true, {}, map[], [], [], [], [])

  predicate Enabled(w: World, a: Step) {
    match a
    case NewSurface(s) => w.connected && s !in w.born
    case RequestFrame(s, _) => w.connected && s in w.cells
    case EditPending(s, edited) =>
      w.connected && s in w.cells && edited.frameCallbacks == w.cells[s].stages.pending.frameCallbacks
    case CommitSurface(s) => w.connected && s in w.cells
    case UpdateCurrentOf(s) => w.connected && s in w.cells
    case TakeFrame(s) => s in w.cells && w.cells[s].taken.None?
    case SendFrame(s) => s in w.cells && w.cells[s].taken.Some?
    case EnqueueOther => w.connected
    case Dequeue => w.connected && w.dispatching == [] && w.queue != []
    case FinishOne => w.connected && w.dispatching != []
    case DropSurface(s) => s in w.cells && w.cells[s].taken.None?   // the frame task holds it otherwise
    case Disconnect => w.connected
  }

  function Next(w: World, a: Step): World
    requires Enabled(w, a)
  {
    match a
    case NewSurface(s) =>
      w.(born := w.born + {s}, cells := w.cells[s := Cell(Initial(SURFACE, DEFAULT_SURFACE), None)])
    case RequestFrame(s, id) =>
      var cb := Callback(id, s);
      var st := w.cells[s].stages;
      var pending := st.pending.(frameCallbacks := st.pending.frameCallbacks + [cb]);
      w.(cells := w.cells[s := w.cells[s].(stages := st.(pending := pending))], requested := w.requested + [cb])
    case EditPending(s, edited) =>
      w.(cells := w.cells[s := w.cells[s].(stages := w.cells[s].stages.(pending := edited))])
    case CommitSurface(s) =>
      w.(cells := w.cells[s := w.cells[s].(stages := Committed(SURFACE, w.cells[s].stages))])
    case UpdateCurrentOf(s) =>
      w.(cells := w.cells[s := w.cells[s].(stages := CurrentUpdated(SURFACE, w.cells[s].stages))])
    case TakeFrame(s) =>
      var st := w.cells[s].stages;
      w.(cells := w.cells[s := Cell(st.(current := TakeCallbacks(st.current)), Some(st.current.frameCallbacks))])
    case SendFrame(s) =>
      var batch := w.cells[s].taken.value;
      w.(cells := w.cells[s := w.cells[s].(taken := None)],
         queue := if batch == [] || !w.connected then w.queue else w.queue + [Frame(batch)])
    case EnqueueOther => w.(queue := w.queue + [OtherMessage])
    case Dequeue =>
      w.(queue := w.queue[1..], dispatching := if w.queue[0].Frame? then w.queue[0].callbacks else [])
    case FinishOne => w.(dispatching := w.dispatching[1..], done := w.done + [w.dispatching[0]])
    case DropSurface(s) => w.(cells := w.cells - {s})
    case Disconnect => w.(connected := false, queue := [], dispatching := [])
  }

  ghost predicate Reachable(w: World, steps: seq<Step>)
    decreases |steps|
  {
    if steps == [] then w == START
    else
      var last := |steps| - 1;
      exists v :: Reachable(v, steps[..last]) && Enabled(v, steps[last]) && w == Next(v, steps[last])
  }

  // ---------------------------------------------------------------------------------------------
  // Conservation
  // ---------------------------------------------------------------------------------------------

  /** The callbacks of surface `s`, in order. */
  function Of(s: nat, cbs: seq<Callback>): seq<Callback> {
    if cbs == [] then []
    else (if cbs[0].surface == s then [cbs[0]] else []) + Of(s, cbs[1..])
  }

  function Queued(queue: seq<Message>): seq<Callback> {
    if queue == [] then []
    else (if queue[0].Frame? then queue[0].callbacks else []) + Queued(queue[1..])
  }

  function TakenBy(c: Cell): seq<Callback> {
    if c.taken.Some? then c.taken.value else []
  }

  /** The callbacks a surface and its frame task still hold, oldest first. */
  function Held(c: Cell): seq<Callback> {
    TakenBy(c) + c.stages.current.frameCallbacks + c.stages.applied.frameCallbacks + c.stages.pending.frameCallbacks
  }

  /** What left the surfaces, finished or on its way, oldest first. */
  function Left(w: World): seq<Callback> {
    w.done + w.dispatching + Queued(w.queue)
  }

  predicate AllOf(s: nat, cbs: seq<Callback>) {
    forall c | c in cbs :: c.surface == s
  }

  /** What a live surface of a connected client holds is the rest of what it requested. */
  ghost predicate CellInv(w: World, s: nat)
    requires s in w.cells
  {
    var c := w.cells[s];
    && s in w.born
    && AllOf(s, Held(c)) && c.stages.applied.frameCallbacks == []
    && (w.connected ==> Of(s, Left(w)) + Held(c) == Of(s, w.requested))
  }

  ghost predicate InOrder(w: World, s: nat) {
    Of(s, Left(w)) <= Of(s, w.requested)
  }

  ghost predicate Inv(w: World) {
    && (forall c | c in w.requested :: c.surface in w.born)
    && (forall c | c in Left(w) :: c.surface in w.born)
    && (forall s | s in w.cells :: CellInv(w, s))
    && (forall s :: InOrder(w, s))
  }

  lemma {:induction false} OfAppend(s: nat, a: seq<Callback>, b: seq<Callback>)
    ensures Of(s, a + b) == Of(s, a) + Of(s, b)
  {
    if a == [] {
      assert a + b == b;
    } else {
      assert (a + b)[1..] == a[1..] + b;
      OfAppend(s, a[1..], b);
      var first := if a[0].surface == s then [a[0]] else [];
      assert first + (Of(s, a[1..]) + Of(s, b)) == first + Of(s, a[1..]) + Of(s, b);
    }
  }

  lemma {:induction false} OfOwn(s: nat, a: seq<Callback>)
    requires AllOf(s, a)
    ensures Of(s, a) == a
  {
    if a != [] {
      OfOwn(s, a[1..]);
    }
  }

  lemma {:induction false} OfForeign(s: nat, a: seq<Callback>)
    requires forall c | c in a :: c.surface != s
    ensures Of(s, a) == []
  {
    if a != [] {
      OfForeign(s, a[1..]);
    }
  }

  lemma {:induction false} QueuedAppend(q: seq<Message>, r: seq<Message>)
    ensures Queued(q + r) == Queued(q) + Queued(r)
  {
    if q == [] {
      assert q + r == r;
    } else {
      assert (q + r)[1..] == q[1..] + r;
      QueuedAppend(q[1..], r);
      var first := if q[0].Frame? then q[0].callbacks else [];
      assert first + (Queued(q[1..]) + Queued(r)) == first + Queued(q[1..]) + Queued(r);
    }
  }

  lemma OfAppended(t: nat, s: nat, a: seq<Callback>, b: seq<Callback>)
    requires AllOf(s, b)
    ensures Of(t, a + b) == if t == s then Of(t, a) + b else Of(t, a)
  {
    OfAppend(t, a, b);
    if t == s { OfOwn(s, b); } else { OfForeign(t, b); }
  }

  /** A step of one live surface: `moved` leaves it and `added` is requested. */
  ghost predicate SurfaceStep(w: World, v: World, s: nat, moved: seq<Callback>, added: seq<Callback>) {
    && s in w.cells && v.cells.Keys == w.cells.Keys && v.born == w.born && v.connected == w.connected
    && (forall t | t in w.cells && t != s :: v.cells[t] == w.cells[t])
    && Left(v) == Left(w) + moved && v.requested == w.requested + added && (!w.connected ==> moved == [])
    && Held(w.cells[s]) + added == moved + Held(v.cells[s])
    && AllOf(s, added) && v.cells[s].stages.applied.frameCallbacks == []
  }

  lemma MovedAreOwn(w: World, v: World, s: nat, moved: seq<Callback>, added: seq<Callback>)
    requires Inv(w) && SurfaceStep(w, v, s, moved, added)
    ensures AllOf(s, moved) && AllOf(s, Held(v.cells[s]))
  {
    assert CellInv(w, s);
    var all := Held(w.cells[s]) + added;
    assert AllOf(s, all);
    assert forall i | 0 <= i < |moved| :: moved[i] == all[i];
    assert forall i | 0 <= i < |Held(v.cells[s])| :: Held(v.cells[s])[i] == all[|moved| + i];
  }

  lemma Regrouped(before: seq<Callback>, moved: seq<Callback>, held: seq<Callback>, had: seq<Callback>, added: seq<Callback>)
    requires had + added == moved + held
    ensures before + moved + held == before + had + added
  {
    assert before + moved + held == before + (moved + held);
    assert before + had + added == before + (had + added);
  }

  lemma CellAfterSurfaceStep(w: World, v: World, s: nat, moved: seq<Callback>, added: seq<Callback>, t: nat)
    requires Inv(w) && SurfaceStep(w, v, s, moved, added) && t in v.cells
    ensures CellInv(v, t)
  {
    assert CellInv(w, t);
    MovedAreOwn(w, v, s, moved, added);
    OfAppended(t, s, Left(w), moved);
    OfAppended(t, s, w.requested, added);
    if t == s && w.connected {
      Regrouped(Of(s, Left(w)), moved, Held(v.cells[s]), Held(w.cells[s]), added);
    }
  }

  lemma InvAfterSurfaceStep(w: World, v: World, s: nat, moved: seq<Callback>, added: seq<Callback>)
    requires Inv(w) && SurfaceStep(w, v, s, moved, added)
    ensures Inv(v)
  {
    MovedAreOwn(w, v, s, moved, added);
    forall t | t in v.cells ensures CellInv(v, t) {
      CellAfterSurfaceStep(w, v, s, moved, added, t);
    }
    assert CellInv(v, s) && CellInv(w, s);
    forall t ensures InOrder(v, t) {
      assert InOrder(w, t);
      OfAppended(t, s, Left(w), moved);
      OfAppended(t, s, w.requested, added);
    }
  }

  lemma LeftAfterSend(w: World, s: nat)
    requires Enabled(w, SendFrame(s))
    ensures Left(Next(w, SendFrame(s))) == Left(w) + if w.connected then w.cells[s].taken.value else []
  {
    var batch := w.cells[s].taken.value;
    QueuedAppend(w.queue, [Frame(batch)]);
    assert [Frame(batch)][1..] == [] && Queued([Frame(batch)]) == batch;
  }

  lemma InvAfterDisconnect(w: World)
    requires Inv(w) && Enabled(w, Disconnect)
    ensures Inv(Next(w, Disconnect))
  {
    var v := Next(w, Disconnect);
    var rest := w.dispatching + Queued(w.queue);
    assert Left(v) == w.done && Left(w) == w.done + rest;
    forall t ensures InOrder(v, t) {
      OfAppend(t, w.done, rest);
      assert InOrder(w, t);
    }
    forall t | t in v.cells ensures CellInv(v, t) {
      assert CellInv(w, t);
    }
  }

  /** A step of the dispatch loop, or a message of another kind, keeps what left the surfaces. */
  lemma InvAfterMoveOutside(w: World, v: World)
    requires Inv(w) && Left(v) == Left(w)
    requires v.connected == w.connected && v.born == w.born && v.requested == w.requested
    requires forall s | s in v.cells :: s in w.cells && v.cells[s] == w.cells[s]
    ensures Inv(v)
  {
    forall t ensures InOrder(v, t) {
      assert InOrder(w, t);
    }
    forall t | t in v.cells ensures CellInv(v, t) {
      assert CellInv(w, t);
    }
  }

  lemma InvAfterNew(w: World, s: nat)
    requires Inv(w) && Enabled(w, NewSurface(s))
    ensures Inv(Next(w, NewSurface(s)))
  {
    var v := Next(w, NewSurface(s));
    assert Left(v) == Left(w);
    OfForeign(s, Left(w));
    OfForeign(s, w.requested);
    forall t ensures InOrder(v, t) {
      assert InOrder(w, t);
    }
    forall t | t in v.cells ensures CellInv(v, t) {
      assert t != s ==> CellInv(w, t);
    }
  }

  lemma InvAfterEnqueueOther(w: World)
    requires Inv(w) && Enabled(w, EnqueueOther)
    ensures Inv(Next(w, EnqueueOther))
  {
    QueuedAppend(w.queue, [OtherMessage]);
    assert [OtherMessage][1..] == [];
    InvAfterMoveOutside(w, Next(w, EnqueueOther));
  }

  lemma InvAfterDispatch(w: World, a: Step)
    requires Inv(w) && Enabled(w, a) && (a.Dequeue? || a.FinishOne? || a.DropSurface?)
    ensures Inv(Next(w, a))
  {
    InvAfterMoveOutside(w, Next(w, a));
  }

  lemma InvAfterRequest(w: World, s: nat, id: nat)
    requires Inv(w) && Enabled(w, RequestFrame(s, id))
    ensures Inv(Next(w, RequestFrame(s, id)))
  {
    assert CellInv(w, s);
    RequestIsSurfaceStep(w, s, id);
    InvAfterSurfaceStep(w, Next(w, RequestFrame(s, id)), s, [], [Callback(id, s)]);
  }

  lemma RequestIsSurfaceStep(w: World, s: nat, id: nat)
    requires Enabled(w, RequestFrame(s, id)) && w.cells[s].stages.applied.frameCallbacks == []
    ensures SurfaceStep(w, Next(w, RequestFrame(s, id)), s, [], [Callback(id, s)])
  {
    var v := Next(w, RequestFrame(s, id));
    assert Held(v.cells[s]) == Held(w.cells[s]) + [Callback(id, s)];
    assert Left(v) == Left(w);
  }

  lemma StepKeepsInv(w: World, a: Step)
    requires Inv(w) && Enabled(w, a)
    ensures Inv(Next(w, a))
  {
    match a
    case NewSurface(s) => InvAfterNew(w, s);
    case RequestFrame(s, id) => InvAfterRequest(w, s, id);
    case SendFrame(s) => InvAfterSend(w, s);
    case Disconnect => InvAfterDisconnect(w);
    case EnqueueOther => InvAfterEnqueueOther(w);
    case Dequeue => InvAfterDispatch(w, a);
    case FinishOne => InvAfterDispatch(w, a);
    case DropSurface(_) => InvAfterDispatch(w, a);
    case EditPending(s, edited) => InvAfterEdit(w, s, edited);
    case CommitSurface(s) => InvAfterCommit(w, s);
    case UpdateCurrentOf(s) => InvAfterUpdateCurrent(w, s);
    case TakeFrame(s) => InvAfterTake(w, s);
  }

  function WithCell(w: World, s: nat, cell: Cell): World {
    w.(cells := w.cells[s := cell])
  }

  /** A step that only moves callbacks between the stages of one surface and its frame task. */
  lemma InvAfterMoveInside(w: World, s: nat, cell: Cell)
    requires Inv(w) && s in w.cells && Held(cell) == Held(w.cells[s]) && cell.stages.applied.frameCallbacks == []
    ensures Inv(WithCell(w, s, cell))
  {
    var v := WithCell(w, s, cell);
    assert Left(v) == Left(w) + [] && v.requested == w.requested + [];
    assert Held(w.cells[s]) + [] == [] + Held(v.cells[s]);
    InvAfterSurfaceStep(w, v, s, [], []);
  }

  lemma InvAfterEdit(w: World, s: nat, edited: SurfaceState)
    requires Inv(w) && Enabled(w, EditPending(s, edited))
    ensures Inv(Next(w, EditPending(s, edited)))
  {
    assert CellInv(w, s);
    InvAfterMoveInside(w, s, w.cells[s].(stages := w.cells[s].stages.(pending := edited)));
  }

  lemma CommitKeepsHeld(cell: Cell)
    requires cell.stages.applied.frameCallbacks == []
    ensures var now := cell.(stages := Committed(SURFACE, cell.stages));
            Held(now) == Held(cell) && now.stages.applied.frameCallbacks == []
  {
    var st := cell.stages;
    var now := Committed(SURFACE, st);
    var (taken, current, pending) := (TakenBy(cell), st.current.frameCallbacks, st.pending.frameCallbacks);
    assert now.current.frameCallbacks == current + ([] + pending) && now.pending.frameCallbacks == [];
    assert taken + (current + ([] + pending)) + [] + [] == taken + current + [] + pending;
  }

  lemma UpdateKeepsHeld(cell: Cell)
    requires cell.stages.applied.frameCallbacks == []
    ensures var now := cell.(stages := CurrentUpdated(SURFACE, cell.stages));
            Held(now) == Held(cell) && now.stages.applied.frameCallbacks == []
  {
    assert CurrentUpdated(SURFACE, cell.stages).current.frameCallbacks == cell.stages.current.frameCallbacks + [];
  }

  lemma InvAfterCommit(w: World, s: nat)
    requires Inv(w) && Enabled(w, CommitSurface(s))
    ensures Inv(Next(w, CommitSurface(s)))
  {
    assert CellInv(w, s);
    CommitKeepsHeld(w.cells[s]);
    InvAfterMoveInside(w, s, w.cells[s].(stages := Committed(SURFACE, w.cells[s].stages)));
  }

  lemma InvAfterUpdateCurrent(w: World, s: nat)
    requires Inv(w) && Enabled(w, UpdateCurrentOf(s))
    ensures Inv(Next(w, UpdateCurrentOf(s)))
  {
    assert CellInv(w, s);
    UpdateKeepsHeld(w.cells[s]);
    InvAfterMoveInside(w, s, w.cells[s].(stages := CurrentUpdated(SURFACE, w.cells[s].stages)));
  }

  lemma InvAfterTake(w: World, s: nat)
    requires Inv(w) && Enabled(w, TakeFrame(s))
    ensures Inv(Next(w, TakeFrame(s)))
  {
    assert CellInv(w, s);
    var st := w.cells[s].stages;
    InvAfterMoveInside(w, s, Cell(st.(current := TakeCallbacks(st.current)), Some(st.current.frameCallbacks)));
  }

  lemma InvAfterSend(w: World, s: nat)
    requires Inv(w) && Enabled(w, SendFrame(s))
    ensures Inv(Next(w, SendFrame(s)))
  {
    LeftAfterSend(w, s);
    assert CellInv(w, s);
    if w.connected {
      InvAfterSurfaceStep(w, Next(w, SendFrame(s)), s, w.cells[s].taken.value, []);
    } else {
      InvAfterDroppedSend(w, s);
    }
  }

  lemma InvAfterDroppedSend(w: World, s: nat)
    requires Inv(w) && Enabled(w, SendFrame(s)) && !w.connected
    ensures Inv(Next(w, SendFrame(s)))
  {
    var v := Next(w, SendFrame(s));
    assert Left(v) == Left(w);
    forall t ensures InOrder(v, t) {
      assert InOrder(w, t);
    }
    forall t | t in v.cells ensures CellInv(v, t) {
      assert CellInv(w, t);
      assert forall c | c in Held(v.cells[t]) :: c in Held(w.cells[t]);
    }
  }

  lemma {:induction false} ReachableInv(w: World, steps: seq<Step>)
    requires Reachable(w, steps)
    ensures Inv(w)
    decreases |steps|
  {
    if steps != [] {
      var last := |steps| - 1;
      var v :| Reachable(v, steps[..last]) && Enabled(v, steps[last]) && w == Next(v, steps[last]);
      ReachableInv(v, steps[..last]);
      StepKeepsInv(v, steps[last]);
    }
  }

  /** For every live surface of a connected client and every interleaving, the six places a callback
      can be in hold, in order, exactly what the surface requested. */
  lemma CallbacksAreConserved(w: World, steps: seq<Step>, s: nat)
    requires Reachable(w, steps) && w.connected && s in w.cells
    ensures var c := w.cells[s];
            Of(s, w.done) + Of(s, w.dispatching) + Of(s, Queued(w.queue)) + TakenBy(c)
              + c.stages.current.frameCallbacks + c.stages.applied.frameCallbacks + c.stages.pending.frameCallbacks
            == Of(s, w.requested)
  {
    ReachableInv(w, steps);
    OfAppend(s, w.done + w.dispatching, Queued(w.queue));
    OfAppend(s, w.done, w.dispatching);
    var c := w.cells[s];
    assert CellInv(w, s);
    Ungrouped(Of(s, w.done) + Of(s, w.dispatching) + Of(s, Queued(w.queue)), TakenBy(c),
              c.stages.current.frameCallbacks, c.stages.applied.frameCallbacks, c.stages.pending.frameCallbacks);
  }

  lemma Ungrouped(a: seq<Callback>, b: seq<Callback>, c: seq<Callback>, d: seq<Callback>, e: seq<Callback>)
    ensures a + (b + c + d + e) == a + b + c + d + e
  {
  }

  /** Whatever died or disconnected, each callback is finished at most once and in request order. */
  lemma FinishedInRequestOrder(w: World, steps: seq<Step>, s: nat)
    requires Reachable(w, steps)
    ensures Of(s, w.done) <= Of(s, w.requested)
  {
    ReachableInv(w, steps);
    var rest := w.dispatching + Queued(w.queue);
    assert Left(w) == w.done + rest && InOrder(w, s);
    OfAppend(s, w.done, rest);
  }

  // ---------------------------------------------------------------------------------------------
  // Nothing is stuck
  // ---------------------------------------------------------------------------------------------

  ghost predicate RunsTo(w: World, steps: seq<Step>, v: World)
    decreases |steps|
  {
    if steps == [] then v == w
    else Enabled(w, steps[0]) && RunsTo(Next(w, steps[0]), steps[1..], v)
  }

  lemma RunsToCons(w: World, a: Step, steps: seq<Step>, v: World)
    requires Enabled(w, a) && RunsTo(Next(w, a), steps, v)
    ensures RunsTo(w, [a] + steps, v)
  {
    assert ([a] + steps)[1..] == steps;
  }

  /** The dispatch loop alone finishes everything that left the surfaces, in order. */
  lemma {:induction false} DispatchAll(w: World) returns (steps: seq<Step>, v: World)
    requires w.connected
    ensures RunsTo(w, steps, v)
    ensures v.done == Left(w) && v.requested == w.requested
    decreases |w.queue|, |w.dispatching|
  {
    if w.dispatching != [] {
      var n := Next(w, FinishOne);
      assert Left(n) == Left(w);
      steps, v := DispatchAll(n);
      RunsToCons(w, FinishOne, steps, v);
      steps := [FinishOne] + steps;
    } else if w.queue != [] {
      var n := Next(w, Dequeue);
      assert Left(n) == Left(w);
      steps, v := DispatchAll(n);
      RunsToCons(w, Dequeue, steps, v);
      steps := [Dequeue] + steps;
    } else {
      steps, v := [], w;
      assert Left(w) == w.done;
    }
  }

  lemma SendTaken(w: World, s: nat) returns (steps: seq<Step>, v: World)
    requires Inv(w) && w.connected && s in w.cells && Held(w.cells[s]) == TakenBy(w.cells[s])
    requires w.cells[s].taken.Some?
    ensures RunsTo(w, steps, v) && Of(s, v.done) == Of(s, w.requested) && v.requested == w.requested
  {
    var n := Next(w, SendFrame(s));
    StepKeepsInv(w, SendFrame(s));
    assert CellInv(n, s) && Held(n.cells[s]) == [];
    steps, v := DispatchAll(n);
    RunsToCons(w, SendFrame(s), steps, v);
    steps := [SendFrame(s)] + steps;
  }

  lemma CommitTakeSend(w: World, s: nat) returns (steps: seq<Step>, v: World)
    requires Inv(w) && w.connected && s in w.cells && w.cells[s].taken.None?
    ensures RunsTo(w, steps, v) && Of(s, v.done) == Of(s, w.requested) && v.requested == w.requested
  {
    assert CellInv(w, s);
    StepKeepsInv(w, CommitSurface(s));
    var w1 := Next(w, CommitSurface(s));
    StepKeepsInv(w1, TakeFrame(s));
    var w2 := Next(w1, TakeFrame(s));
    steps, v := SendTaken(w2, s);
    RunsToCons(w1, TakeFrame(s), steps, v);
    steps := [TakeFrame(s)] + steps;
    RunsToCons(w, CommitSurface(s), steps, v);
    steps := [CommitSurface(s)] + steps;
  }

  /** From every reachable state of a connected client, one commit and one frame event of a live
      surface are enough for the client to be told of every callback that surface requested. */
  lemma EveryCallbackCanFinish(w: World, run: seq<Step>, s: nat) returns (steps: seq<Step>, v: World)
    requires Reachable(w, run) && w.connected && s in w.cells
    ensures RunsTo(w, steps, v) && Of(s, v.done) == Of(s, w.requested) && v.requested == w.requested
  {
    ReachableInv(w, run);
    if w.cells[s].taken.Some? {
      StepKeepsInv(w, SendFrame(s));
      steps, v := CommitTakeSend(Next(w, SendFrame(s)), s);
      RunsToCons(w, SendFrame(s), steps, v);
      steps := [SendFrame(s)] + steps;
    } else {
      steps, v := CommitTakeSend(w, s);
    }
  }

  // ---------------------------------------------------------------------------------------------
  // The dispatch loop on one batch
  // ---------------------------------------------------------------------------------------------

  datatype Event = Done(id: nat) | DeleteId(id: nat)

  function FrameEvents(callbacks: seq<Callback>): (r: seq<Event>)
    ensures |r| == 2 * |callbacks|
  {
    if callbacks == [] then []
    else
      var last := |callbacks| - 1;
      FrameEvents(callbacks[..last]) + [Done(callbacks[last].id), DeleteId(callbacks[last].id)]
  }

  class Client {
    var store: set<nat>
    var events: seq<Event>

    constructor (store: set<nat>)
      ensures this.store == store && events == []
    {
      this.store, events := store, [];
    }

    /** Handles one `Message::Frame`. `writes` is how many writes the socket takes before it fails;
        the first failed write ends the loop, and with it the client. */
    method HandleFrame(callbacks: seq<Callback>, writes: nat) returns (ok: bool)
      modifies this
      ensures ok <==> writes >= 2 * |callbacks|
      ensures var sent := FrameEvents(callbacks);
              events == old(events) + if ok then sent else sent[..writes]
      ensures store == old(store) - Ids(callbacks[..if ok then |callbacks| else writes / 2])
    {
      var left := writes;
      var i := 0;
      while i < |callbacks|
        invariant 0 <= i <= |callbacks| && left == writes - 2 * i >= 0
        invariant events == old(events) + FrameEvents(callbacks[..i])
        invariant store == old(store) - Ids(callbacks[..i])
      {
        FrameEventsStep(callbacks, i);
        var id := callbacks[i].id;
        if left == 0 {
          return false;
        }
        events := events + [Done(id)];
        if left == 1 {
          return false;
        }
        events := events + [DeleteId(id)];
        store := store - {id};
        left := left - 2;
        i := i + 1;
      }
      assert callbacks[..i] == callbacks;
      ok := true;
    }
  }

  function Ids(callbacks: seq<Callback>): set<nat> {
    set c | c in callbacks :: c.id
  }

  lemma FrameEventsStep(callbacks: seq<Callback>, i: nat)
    requires i < |callbacks|
    ensures FrameEvents(callbacks)[..2 * i] == FrameEvents(callbacks[..i])
    ensures FrameEvents(callbacks)[..2 * i + 1] == FrameEvents(callbacks[..i]) + [Done(callbacks[i].id)]
    ensures FrameEvents(callbacks[..i + 1])
         == FrameEvents(callbacks[..i]) + [Done(callbacks[i].id)] + [DeleteId(callbacks[i].id)]
    ensures Ids(callbacks[..i + 1]) == Ids(callbacks[..i]) + {callbacks[i].id}
  {
    FrameEventsPrefix(callbacks, i);
    FrameEventsPrefix(callbacks, i + 1);
    FrameEventsLast(callbacks, i);
    NextTwo(FrameEvents(callbacks), FrameEvents(callbacks[..i]), FrameEvents(callbacks[..i + 1]), i,
            Done(callbacks[i].id), DeleteId(callbacks[i].id));
    IdsLast(callbacks, i);
  }

  lemma NextTwo(sent: seq<Event>, before: seq<Event>, now: seq<Event>, i: nat, a: Event, b: Event)
    requires |before| == 2 * i && 2 * (i + 1) <= |sent| && sent[..2 * (i + 1)] == now && now == before + [a, b]
    ensures sent[..2 * i + 1] == before + [a] && now == before + [a] + [b]
  {
    PrefixesAgree(sent, before, a, b);
  }

  lemma IdsLast(callbacks: seq<Callback>, i: nat)
    requires i < |callbacks|
    ensures Ids(callbacks[..i + 1]) == Ids(callbacks[..i]) + {callbacks[i].id}
  {
    assert callbacks[..i + 1] == callbacks[..i] + [callbacks[i]];
  }

  lemma PrefixesAgree(sent: seq<Event>, before: seq<Event>, a: Event, b: Event)
    requires |before| + 2 <= |sent| && sent[..|before| + 2] == before + [a, b]
    ensures sent[..|before| + 1] == before + [a] && before + [a] + [b] == before + [a, b]
  {
    assert sent[..|before| + 1] == sent[..|before| + 2][..|before| + 1];
  }

  lemma FrameEventsLast(callbacks: seq<Callback>, i: nat)
    requires i < |callbacks|
    ensures FrameEvents(callbacks[..i + 1])
         == FrameEvents(callbacks[..i]) + [Done(callbacks[i].id), DeleteId(callbacks[i].id)]
  {
    assert callbacks[..i + 1][..i] == callbacks[..i];
  }

  lemma {:induction false} FrameEventsPrefix(callbacks: seq<Callback>, n: nat)
    requires n <= |callbacks|
    ensures FrameEvents(callbacks)[..2 * n] == FrameEvents(callbacks[..n])
    decreases |callbacks|
  {
    if n == |callbacks| {
      assert callbacks[..n] == callbacks;
    } else {
      var last := |callbacks| - 1;
      FrameEventsPrefix(callbacks[..last], n);
      assert callbacks[..last][..n] == callbacks[..n];
    }
  }
}
