/** The table of child surfaces a panel backend keeps, and the panel shell that follows it by calls. */
module PanelChildren {
  import opened Wrappers

  /** A surface's write-once `surface_id`. */
  datatype Target = Toplevel | Child(id: nat) | Cursor

  datatype Surface = Surface(allocation: nat, target: Option<Target>)

  datatype Geometry = Geometry(x: int, y: int, width: nat, height: nat)

  /** `parent` is `None` for the toplevel. */
  datatype ChildState = ChildState(id: nat, parent: Option<nat>, geometry: Geometry, zOrder: int)

  datatype Call =
    | CreateChild(info: ChildState)
    | MoveChild(id: nat, geometry: Geometry)
    | DestroyChild(id: nat)

  datatype Request =
    | Add(surface: Surface, info: ChildState)
    | Reposition(surface: Surface, geometry: Geometry)
    | UpdateZOrder(surface: Surface, zOrder: int)
    | Remove(surface: Surface)

  /** A backend: whether its write-once shell is set, its table, and the calls made to the shell. */
  datatype Backend = Backend(shell: bool, children: map<nat, (Surface, ChildState)>, calls: seq<Call>)

  function ChildId(s: Surface): Option<nat> {
    if s.target.Some? && s.target.value.Child? then Some(s.target.value.id) else None
  }

  function Told(b: Backend, c: Call): Backend {
    if b.shell then b.(calls := b.calls + [c]) else b
  }

  function Handled(b: Backend, r: Request): Backend {
    match ChildId(r.surface)
    case None => b
    case Some(id) =>
      match r
      case Add(s, info) => Told(b.(children := b.children[id := (s, info)]), CreateChild(info))
      case Reposition(_, g) =>
        var table := if id in b.children then b.children[id := (b.children[id].0, b.children[id].1.(geometry := g))]
                     else b.children;
        Told(b.(children := table), MoveChild(id, g))
      case UpdateZOrder(_, z) =>
        if id !in b.children then b
        else
          var (s, info) := b.children[id];
          Told(b.(children := b.children[id := (s, info.(zOrder := z))]), MoveChild(id, info.geometry))
      case Remove(_) => Told(b.(children := b.children - {id}), DestroyChild(id))
  }

  class XdgBackend {
    var panelShell: bool
    var children: map<nat, (Surface, ChildState)>
    var calls: seq<Call>

    ghost function View(): Backend
      reads this
    {
      Backend(panelShell, children, calls)
    }

    /** For the panel shell the compositor draws itself. */
    constructor ()
      ensures View() == Backend(true, map[], [])
    {
      panelShell, children, calls := true, map[], [];
    }

    /** Offered to an acceptor, which has not answered yet. */
    constructor Connecting()
      ensures View() == Backend(false, map[], [])
    {
      panelShell, children, calls := false, map[], [];
    }

    method SetPanelShell()
      modifies this
      ensures View() == old(View()).(shell := true)
    {
      panelShell := true;
    }

    method Tell(c: Call)
      modifies this
      ensures View() == Told(old(View()), c)
    {
      if panelShell {
        calls := calls + [c];
      }
    }

    method AddChild(surface: Surface, info: ChildState)
      modifies this
      ensures View() == Handled(old(View()), Add(surface, info))
    {
      var id := ChildId(surface);
      if id.None? {
        return;
      }
      children := children[id.value := (surface, info)];  // a mismatch with `info.id` is only logged
      Tell(CreateChild(info));
    }

    method RepositionChild(surface: Surface, geometry: Geometry)
      modifies this
      ensures View() == Handled(old(View()), Reposition(surface, geometry))
    {
      var id := ChildId(surface);
      if id.None? {
        return;
      }
      if id.value in children {
        var (s, info) := children[id.value];
        children := children[id.value := (s, info.(geometry := geometry))];
      }
      Tell(MoveChild(id.value, geometry));
    }

    method UpdateChildZOrder(surface: Surface, zOrder: int)
      modifies this
      ensures View() == Handled(old(View()), UpdateZOrder(surface, zOrder))
    {
      var id := ChildId(surface);
      if id.None? {
        return;
      }
      if id.value in children {
        var (s, info) := children[id.value];
        children := children[id.value := (s, info.(zOrder := zOrder))];
        Tell(MoveChild(id.value, info.geometry));
      }
    }

    method RemoveChild(surface: Surface)
      modifies this
      ensures View() == Handled(old(View()), Remove(surface))
    {
      var id := ChildId(surface);
      if id.None? {
        return;
      }
      children := children - {id.value};
      Tell(DestroyChild(id.value));
    }
  }

  /** `connect`: a backend is handed on only with its shell set, and not at all if the acceptor refuses. */
  method Connect(accepted: bool) returns (backend: XdgBackend?)
    ensures backend != null <==> accepted
    ensures backend != null ==> fresh(backend) && backend.View() == Backend(true, map[], [])
  {
    var offered := new XdgBackend.Connecting();
    if !accepted {
      return null;
    }
    offered.SetPanelShell();
    backend := offered;
  }

  // ---------------------------------------------------------------------------------------------
  // What the shell can rebuild from the calls
  // ---------------------------------------------------------------------------------------------

  /** The shell's side: moves of unknown children are ignored. */
  function Replayed(known: map<nat, ChildState>, c: Call): map<nat, ChildState> {
    match c
    case CreateChild(info) => known[info.id := info]
    case MoveChild(id, g) => if id in known then known[id := known[id].(geometry := g)] else known
    case DestroyChild(id) => known - {id}
  }

  function Replay(calls: seq<Call>): map<nat, ChildState> {
    if calls == [] then map[] else Replayed(Replay(calls[..|calls| - 1]), calls[|calls| - 1])
  }

  lemma ReplayAppend(calls: seq<Call>, c: Call)
    ensures Replay(calls + [c]) == Replayed(Replay(calls), c)
  {
    assert (calls + [c])[..|calls|] == calls;
  }

  /** Equal but for the z-order, which no call after the creation carries. */
  predicate SameButZOrder(a: ChildState, b: ChildState) {
    a.id == b.id && a.parent == b.parent && a.geometry == b.geometry
  }

  ghost predicate Mirrors(known: map<nat, ChildState>, table: map<nat, (Surface, ChildState)>) {
    && known.Keys == table.Keys
    && forall id | id in table :: SameButZOrder(known[id], table[id].1)
  }

  ghost predicate Keyed(table: map<nat, (Surface, ChildState)>) {
    forall id | id in table :: table[id].1.id == id
  }

  ghost predicate Mirrored(b: Backend) {
    b.shell && Keyed(b.children) && Mirrors(Replay(b.calls), b.children)
  }

  /** A surface with one child role object: the state it is added with carries the surface's own id. */
  predicate OneRoleObject(r: Request) {
    r.Add? && ChildId(r.surface).Some? ==> r.info.id == ChildId(r.surface).value
  }

  lemma AddKeepsMirror(b: Backend, s: Surface, info: ChildState)
    requires Mirrored(b) && OneRoleObject(Add(s, info))
    ensures Mirrored(Handled(b, Add(s, info)))
  {
    ReplayAppend(b.calls, CreateChild(info));
  }

  lemma RepositionKeepsMirror(b: Backend, s: Surface, g: Geometry)
    requires Mirrored(b)
    ensures Mirrored(Handled(b, Reposition(s, g)))
  {
    if ChildId(s).Some? {
      ReplayAppend(b.calls, MoveChild(ChildId(s).value, g));
    }
  }

  lemma UpdateZOrderKeepsMirror(b: Backend, s: Surface, z: int)
    requires Mirrored(b)
    ensures Mirrored(Handled(b, UpdateZOrder(s, z)))
  {
    if ChildId(s).Some? && ChildId(s).value in b.children {
      ReplayAppend(b.calls, MoveChild(ChildId(s).value, b.children[ChildId(s).value].1.geometry));
    }
  }

  lemma RemoveKeepsMirror(b: Backend, s: Surface)
    requires Mirrored(b)
    ensures Mirrored(Handled(b, Remove(s)))
  {
    if ChildId(s).Some? {
      ReplayAppend(b.calls, DestroyChild(ChildId(s).value));
    }
  }

  lemma RequestKeepsMirror(b: Backend, r: Request)
    requires Mirrored(b) && OneRoleObject(r)
    ensures Mirrored(Handled(b, r))
  {
    match r
    case Add(s, info) => AddKeepsMirror(b, s, info);
    case Reposition(s, g) => RepositionKeepsMirror(b, s, g);
    case UpdateZOrder(s, z) => UpdateZOrderKeepsMirror(b, s, z);
    case Remove(s) => RemoveKeepsMirror(b, s);
  }

  /** Adding is right exactly when the ids agree; the source only warns when they do not. */
  lemma AddKeepsMirrorIff(b: Backend, s: Surface, info: ChildState)
    requires Mirrored(b)
    ensures Mirrored(Handled(b, Add(s, info))) <==> OneRoleObject(Add(s, info))
  {
    if OneRoleObject(Add(s, info)) {
      RequestKeepsMirror(b, Add(s, info));
    } else {
      var id := ChildId(s).value;
      assert Handled(b, Add(s, info)).children[id].1.id != id;
    }
  }

  /** The mismatch is visible from outside: the shell then knows a child the table does not list, or
      lacks one that it does. */
  lemma MismatchedAddIsSeen(b: Backend, s: Surface, info: ChildState)
    requires Mirrored(b) && ChildId(s).Some? && info.id != ChildId(s).value
    ensures !Mirrors(Replay(Handled(b, Add(s, info)).calls), Handled(b, Add(s, info)).children)
  {
    var id := ChildId(s).value;
    var c := Handled(b, Add(s, info));
    ReplayAppend(b.calls, CreateChild(info));
    assert c.children[id].1.id == info.id;
    if id in Replay(c.calls) {
      assert Replay(c.calls)[id] == Replay(b.calls)[id];
      assert b.children[id].1.id == id;
      assert !SameButZOrder(Replay(c.calls)[id], c.children[id].1);
    }
  }

  /** What the requests so far ask for child `id`: the state it was last added with since it was last
      removed, at the place and in the order it was last given. */
  function Asked(requests: seq<Request>, id: nat): Option<ChildState> {
    if requests == [] then None
    else
      var r := requests[|requests| - 1];
      var before := Asked(requests[..|requests| - 1], id);
      if ChildId(r.surface) != Some(id) then before
      else
        match r
        case Add(_, info) => Some(info)
        case Remove(_) => None
        case Reposition(_, g) => if before.Some? then Some(before.value.(geometry := g)) else None
        case UpdateZOrder(_, z) => if before.Some? then Some(before.value.(zOrder := z)) else None
  }

  function HandledAll(b: Backend, requests: seq<Request>): Backend {
    if requests == [] then b else Handled(HandledAll(b, requests[..|requests| - 1]), requests[|requests| - 1])
  }

  function Entry(table: map<nat, (Surface, ChildState)>, id: nat): Option<ChildState> {
    if id in table then Some(table[id].1) else None
  }

  /** The table holds what was asked for, z-orders included. */
  lemma {:induction false} TableIsAsAsked(shell: bool, requests: seq<Request>, id: nat)
    ensures Entry(HandledAll(Backend(shell, map[], []), requests).children, id) == Asked(requests, id)
    decreases |requests|
  {
    if requests != [] {
      TableIsAsAsked(shell, requests[..|requests| - 1], id);
    }
  }

  /** The shell is never told a new z-order: here both backends make the same calls. */
  lemma ZOrdersAreNotTold(b: Backend, s: Surface, z: int, z': int)
    ensures Handled(b, UpdateZOrder(s, z)).calls == Handled(b, UpdateZOrder(s, z')).calls
    ensures z != z' && ChildId(s).Some? && ChildId(s).value in b.children ==>
              Handled(b, UpdateZOrder(s, z)).children != Handled(b, UpdateZOrder(s, z')).children
  {
    if z != z' && ChildId(s).Some? && ChildId(s).value in b.children {
      var id := ChildId(s).value;
      assert Handled(b, UpdateZOrder(s, z)).children[id].1.zOrder == z;
      assert Handled(b, UpdateZOrder(s, z')).children[id].1.zOrder == z';
    }
  }

  /** The z-order child `id` was last added with, since it was last removed. */
  function ToldZOrder(requests: seq<Request>, id: nat): Option<int> {
    if requests == [] then None
    else
      var r := requests[|requests| - 1];
      var before := ToldZOrder(requests[..|requests| - 1], id);
      if ChildId(r.surface) != Some(id) then before
      else
        match r
        case Add(_, info) => Some(info.zOrder)
        case Remove(_) => None
        case _ => before
  }

  ghost predicate OneRoleObjects(requests: seq<Request>) {
    forall i | 0 <= i < |requests| :: OneRoleObject(requests[i])
  }

  const WITH_SHELL := Backend(true, map[], [])

  /** What the shell knows of child `id`'s z-order. */
  function KnownZOrder(calls: seq<Call>, id: nat): Option<int> {
    if id in Replay(calls) then Some(Replay(calls)[id].zOrder) else None
  }

  lemma KnownAfterRequest(b: Backend, r: Request, id: nat)
    requires b.shell && OneRoleObject(r)
    ensures KnownZOrder(Handled(b, r).calls, id)
            == if ChildId(r.surface) != Some(id) then KnownZOrder(b.calls, id)
               else match r
                    case Add(_, info) => Some(info.zOrder)
                    case Remove(_) => None
                    case _ => KnownZOrder(b.calls, id)
  {
    var calls := Handled(b, r).calls;
    if calls != b.calls {
      assert calls == b.calls + [calls[|b.calls|]];
      ReplayAppend(b.calls, calls[|b.calls|]);
    }
  }

  /** The shell knows each child's z-order as it was when the child was added. */
  lemma {:induction false} ShellKnowsToldZOrder(requests: seq<Request>, id: nat)
    requires OneRoleObjects(requests)
    ensures var b := HandledAll(WITH_SHELL, requests); Mirrored(b) && KnownZOrder(b.calls, id) == ToldZOrder(requests, id)
    decreases |requests|
  {
    if requests != [] {
      var (before, r) := (requests[..|requests| - 1], requests[|requests| - 1]);
      ShellKnowsToldZOrder(before, id);
      RequestKeepsMirror(HandledAll(WITH_SHELL, before), r);
      KnownAfterRequest(HandledAll(WITH_SHELL, before), r, id);
    }
  }

  /** For a listed child, what the shell rebuilds is the whole stored state exactly when the z-order asked
      for is still the one it was added with. */
  lemma ShellKnowsAllIff(requests: seq<Request>, id: nat)
    requires OneRoleObjects(requests) && Asked(requests, id).Some?
    ensures var b := HandledAll(WITH_SHELL, requests);
            && id in b.children && id in Replay(b.calls) && ToldZOrder(requests, id).Some?
            && (Replay(b.calls)[id] == b.children[id].1
                <==> Asked(requests, id).value.zOrder == ToldZOrder(requests, id).value)
  {
    ShellKnowsToldZOrder(requests, id);
    TableIsAsAsked(true, requests, id);
  }

  // ---------------------------------------------------------------------------------------------
  // Backends come and go while requests arrive
  // ---------------------------------------------------------------------------------------------

  /** `waiting` backends are offered to an acceptor; `held` ones are with the task that will map or
      switch to them; `reached` ones have been in `mapped`, so a handler may still hold them. */
  datatype World = World(
    backends: seq<Backend>,
    waiting: set<nat>,
    held: set<nat>,
    mapped: Option<nat>,
    reached: set<nat>)

  datatype Step =
    | Offer
    | Accepted(at: nat)
    | Refused(at: nat)
    | CreateUi
    | MapToplevel(at: nat)
    | Switch(at: nat)
    | Unmap
    | Call(at: nat, request: Request)

  const START := World([], {}, {}, None, {})

  predicate Enabled(w: World, a: Step) {
    match a
    case Offer => true
    case Accepted(i) => i in w.waiting && i < |w.backends|
    case Refused(i) => i in w.waiting
    case CreateUi => true
    case MapToplevel(i) => i in w.held
    case Switch(i) => i in w.held
    case Unmap => true
    case Call(i, r) => i in w.reached && i < |w.backends| && OneRoleObject(r)
  }

  function Next(w: World, a: Step): World
    requires Enabled(w, a)
  {
    match a
    case Offer => w.(backends := w.backends + [Backend(false, map[], [])], waiting := w.waiting + {|w.backends|})
    case Accepted(i) =>
      w.(backends := w.backends[i := w.backends[i].(shell := true)], waiting := w.waiting - {i}, held := w.held + {i})
    case Refused(i) => w.(waiting := w.waiting - {i})
    case CreateUi => w.(backends := w.backends + [Backend(true, map[], [])], held := w.held + {|w.backends|})
    case MapToplevel(i) => w.(held := w.held - {i}, mapped := Some(i), reached := w.reached + {i})
    case Switch(i) =>
      if w.mapped.Some? then w.(held := w.held - {i}, mapped := Some(i), reached := w.reached + {i})
      else w.(held := w.held - {i})
    case Unmap => w.(mapped := None)
    case Call(i, r) => w.(backends := w.backends[i := Handled(w.backends[i], r)])
  }

  ghost predicate Reachable(w: World, steps: seq<Step>)
    decreases |steps|
  {
    if steps == [] then w == START
    else
      var last := |steps| - 1;
      exists v :: Reachable(v, steps[..last]) && Enabled(v, steps[last]) && w == Next(v, steps[last])
  }

  ghost predicate Inv(w: World) {
    && (forall i | i in w.waiting :: i < |w.backends| && w.backends[i] == Backend(false, map[], []))
    && (forall i | i in w.held :: i < |w.backends| && Mirrored(w.backends[i]))
    && (forall i | i in w.reached :: i < |w.backends| && Mirrored(w.backends[i]))
    && (w.mapped.Some? ==> w.mapped.value in w.reached)
  }

  lemma StepKeepsInv(w: World, a: Step)
    requires Inv(w) && Enabled(w, a)
    ensures Inv(Next(w, a))
  {
    assert Mirrored(Backend(true, map[], []));
    match a
    case Accepted(i) => assert w.backends[i].(shell := true) == Backend(true, map[], []);
    case Call(i, r) =>
      RequestKeepsMirror(w.backends[i], r);
      assert w.backends[i].shell;
    case _ =>
  }

  /** In every run, the backend reached through the toplevel has its shell, and what that shell can
      rebuild from its calls is the backend's table. */
  lemma {:induction false} ShellMirrorsTheTable(w: World, steps: seq<Step>)
    requires Reachable(w, steps)
    ensures Inv(w)
    ensures w.mapped.Some? ==> w.mapped.value < |w.backends| && Mirrored(w.backends[w.mapped.value])
    decreases |steps|
  {
    if steps != [] {
      var last := |steps| - 1;
      var v :| Reachable(v, steps[..last]) && Enabled(v, steps[last]) && w == Next(v, steps[last]);
      ShellMirrorsTheTable(v, steps[..last]);
      StepKeepsInv(v, steps[last]);
    }
  }

  /** The backend last mapped, or switched to while one was mapped, unless it was unmapped since. */
  function MappedIn(steps: seq<Step>): Option<nat> {
    if steps == [] then None
    else
      var before := MappedIn(steps[..|steps| - 1]);
      match steps[|steps| - 1]
      case MapToplevel(i) => Some(i)
      case Switch(i) => if before.Some? then Some(i) else None
      case Unmap => None
      case _ => before
  }

  /** The requests backend `i` got, in order. */
  function RequestsTo(steps: seq<Step>, i: nat): seq<Request> {
    if steps == [] then []
    else
      var a := steps[|steps| - 1];
      RequestsTo(steps[..|steps| - 1], i) + if a.Call? && a.at == i then [a.request] else []
  }

  /** A backend is offered, then held, then reached; until it is reached nothing was asked of it. */
  ghost predicate InTurn(w: World) {
    && (forall i | i in w.waiting :: i < |w.backends| && w.backends[i] == Backend(false, map[], []))
    && (forall i | i in w.held :: i < |w.backends| && w.backends[i] == WITH_SHELL)
    && (forall i | i in w.reached :: i < |w.backends|)
    && w.waiting !! w.held && w.waiting !! w.reached && w.held !! w.reached
  }

  ghost predicate Follows(w: World, steps: seq<Step>) {
    && (forall i | i in w.reached :: i < |w.backends| && w.backends[i] == HandledAll(WITH_SHELL, RequestsTo(steps, i)))
    && (forall i: nat | i !in w.reached :: RequestsTo(steps, i) == [])
    && w.mapped == MappedIn(steps)
  }

  lemma StepKeepsTurn(w: World, a: Step)
    requires InTurn(w) && Enabled(w, a)
    ensures InTurn(Next(w, a))
  {
  }

  lemma OneMoreRequest(b: Backend, requests: seq<Request>, r: Request)
    ensures HandledAll(b, requests + [r]) == Handled(HandledAll(b, requests), r)
  {
    assert (requests + [r])[..|requests|] == requests;
  }

  lemma RequestsAfter(steps: seq<Step>, a: Step, i: nat)
    ensures RequestsTo(steps + [a], i) == RequestsTo(steps, i) + if a.Call? && a.at == i then [a.request] else []
  {
    assert (steps + [a])[..|steps|] == steps;
  }

  lemma MappedAfter(w: World, steps: seq<Step>, a: Step)
    requires Enabled(w, a) && w.mapped == MappedIn(steps)
    ensures Next(w, a).mapped == MappedIn(steps + [a])
  {
    assert (steps + [a])[..|steps|] == steps;
  }

  /** What a step makes of a backend that was reached: only a call changes it. */
  lemma BackendAfter(w: World, a: Step, i: nat)
    requires InTurn(w) && Enabled(w, a) && i in Next(w, a).reached
    ensures i < |Next(w, a).backends|
    ensures i in w.reached ==>
              Next(w, a).backends[i] == if a.Call? && a.at == i then Handled(w.backends[i], a.request) else w.backends[i]
    ensures i !in w.reached ==> !a.Call? && Next(w, a).backends[i] == WITH_SHELL
  {
  }

  lemma StepFollows(w: World, steps: seq<Step>, a: Step)
    requires InTurn(w) && Follows(w, steps) && Enabled(w, a)
    ensures Follows(Next(w, a), steps + [a])
  {
    MappedAfter(w, steps, a);
    forall i | i in Next(w, a).reached
      ensures i < |Next(w, a).backends|
      ensures Next(w, a).backends[i] == HandledAll(WITH_SHELL, RequestsTo(steps + [a], i))
    {
      BackendAfter(w, a, i);
      RequestsAfter(steps, a, i);
      assert RequestsTo(steps, i) + [] == RequestsTo(steps, i) && (i !in w.reached ==> RequestsTo(steps + [a], i) == []);
      if a.Call? && a.at == i {
        OneMoreRequest(WITH_SHELL, RequestsTo(steps, i), a.request);
      }
    }
    forall i: nat | i !in Next(w, a).reached ensures RequestsTo(steps + [a], i) == [] {
      RequestsAfter(steps, a, i);
    }
  }

  lemma {:induction false} EveryRunFollows(w: World, steps: seq<Step>)
    requires Reachable(w, steps)
    ensures InTurn(w) && Follows(w, steps)
    decreases |steps|
  {
    if steps != [] {
      var last := |steps| - 1;
      var v :| Reachable(v, steps[..last]) && Enabled(v, steps[last]) && w == Next(v, steps[last]);
      EveryRunFollows(v, steps[..last]);
      StepKeepsTurn(v, steps[last]);
      StepFollows(v, steps[..last], steps[last]);
      assert steps[..last] + [steps[last]] == steps;
    }
  }

  /** In every run the mapped backend is the one last mapped or switched to, and its table is exactly what
      was asked of it: a backend that was just switched to starts with nothing. */
  lemma MappedIsTheLastOne(w: World, steps: seq<Step>)
    requires Reachable(w, steps)
    ensures w.mapped == MappedIn(steps)
    ensures w.mapped.Some? ==>
              var (i, requests) := (w.mapped.value, RequestsTo(steps, w.mapped.value));
              i < |w.backends| && forall id :: Entry(w.backends[i].children, id) == Asked(requests, id)
  {
    EveryRunFollows(w, steps);
    ShellMirrorsTheTable(w, steps);
    if w.mapped.Some? {
      forall id ensures Entry(w.backends[w.mapped.value].children, id) == Asked(RequestsTo(steps, w.mapped.value), id) {
        TableIsAsAsked(true, RequestsTo(steps, w.mapped.value), id);
      }
    }
  }
}
