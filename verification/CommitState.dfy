/** Double-buffered surface state, kept in three stages.

    Requests edit `pending`; a commit moves it to `applied` and, because the manager never asks for
    synchronization, straight on to `current`; `update_current` repeats that last move. */
module CommitState {
  import opened Wrappers

  /** What `BufferedState` asks of a state type: `apply` may also change the state it applies. */
  datatype BufferedState<!S> = BufferedState(apply: (S, S) -> (S, S), initialPending: S -> S)

  datatype Stages<S> = Stages(current: S, applied: S, pending: S)

  function Initial<S>(ops: BufferedState<S>, s: S): Stages<S> {
    Stages(s, ops.initialPending(s), ops.initialPending(s))
  }

  function CurrentUpdated<S>(ops: BufferedState<S>, st: Stages<S>): Stages<S> {
    var (c, a) := ops.apply(st.current, st.applied);
    Stages(c, a, st.pending)
  }

  function Committed<S>(ops: BufferedState<S>, st: Stages<S>): Stages<S> {
    var (a, p) := ops.apply(st.applied, st.pending);
    CurrentUpdated(ops, Stages(st.current, a, p))
  }

  // ---------------------------------------------------------------------------------------------
  // The two state types
  // ---------------------------------------------------------------------------------------------

  datatype Buffer = Buffer(id: nat, width: nat, height: nat)
  datatype Size = Size(x: nat, y: nat)
  datatype Geometry = Geometry(x: int, y: int, width: nat, height: nat)
  datatype Callback = Callback(id: nat, surface: nat)

  datatype SurfaceState = SurfaceState(
    buffer: Option<Buffer>,
    density: real,
    geometry: Option<Geometry>,
    minSize: Option<Size>,
    maxSize: Option<Size>,
    frameCallbacks: seq<Callback>)

  const DEFAULT_SURFACE := SurfaceState(None, 1.0, None, None, None, [])

  predicate HasValidBuffer(s: SurfaceState) {
    s.buffer.Some? && s.buffer.value.width > 0 && s.buffer.value.height > 0
  }

  /** Replaces every field but the callbacks, which are appended and leave the source empty. */
  function ApplySurface(self: SurfaceState, pending: SurfaceState): (SurfaceState, SurfaceState) {
    (pending.(frameCallbacks := self.frameCallbacks + pending.frameCallbacks), pending.(frameCallbacks := []))
  }

  function InitialPendingSurface(s: SurfaceState): SurfaceState {
    s.(frameCallbacks := [])
  }

  const SURFACE := BufferedState(ApplySurface, InitialPendingSurface)

  datatype SubsurfaceState = SubsurfaceState(x: int, y: int, zOrder: int)

  const DEFAULT_SUBSURFACE := SubsurfaceState(0, 0, 0)

  function ApplySubsurface(self: SubsurfaceState, pending: SubsurfaceState): (SubsurfaceState, SubsurfaceState) {
    (pending, pending)
  }

  const SUBSURFACE := BufferedState(ApplySubsurface, (s: SubsurfaceState) => s)

  // ---------------------------------------------------------------------------------------------
  // The lock-protected buffer and its manager
  // ---------------------------------------------------------------------------------------------

  class SurfaceCommitAwareBuffer<S> {
    const ops: BufferedState<S>
    var current: S
    var applied: S
    var pending: S

    function View(): Stages<S>
      reads this
    {
      Stages(current, applied, pending)
    }

    constructor (initial: S, ops: BufferedState<S>)
      ensures this.ops == ops && View() == Initial(ops, initial)
    {
      this.ops := ops;
      current, applied, pending := initial, ops.initialPending(initial), ops.initialPending(initial);
    }

    method UpdateCurrent()
      modifies this
      ensures View() == CurrentUpdated(ops, old(View()))
    {
      var (c, a) := ops.apply(current, applied);
      current, applied := c, a;
    }

    /** `syncronize` is the manager's answer. */
    method Apply(syncronize: bool)
      modifies this
      ensures !syncronize ==> View() == Committed(ops, old(View()))
      ensures syncronize ==>
                var (a, p) := ops.apply(old(applied), old(pending)); View() == Stages(old(current), a, p)
    {
      var (a, p) := ops.apply(applied, pending);
      applied, pending := a, p;
      if !syncronize {
        UpdateCurrent();
      }
    }
  }

  /** A registry entry is a weak reference to a buffer of either state type. */
  datatype Entry =
    | OfSurface(surface: SurfaceCommitAwareBuffer<SurfaceState>)
    | OfSubsurface(subsurface: SurfaceCommitAwareBuffer<SubsurfaceState>)
  {
    function Object(): object {
      match this
      case OfSurface(b) => b
      case OfSubsurface(b) => b
    }

    ghost predicate HasItsOps() {
      match this
      case OfSurface(b) => b.ops == SURFACE
      case OfSubsurface(b) => b.ops == SUBSURFACE
    }

    twostate predicate Updated()
      reads Object()
    {
      match this
      case OfSurface(b) => b.View() == CurrentUpdated(SURFACE, old(b.View()))
      case OfSubsurface(b) => b.View() == CurrentUpdated(SUBSURFACE, old(b.View()))
    }

    method MoveOn()
      requires HasItsOps()
      modifies Object()
      ensures Updated()
    {
      match this {
        case OfSurface(b) => b.UpdateCurrent();
        case OfSubsurface(b) => b.UpdateCurrent();
      }
    }
  }

  ghost function Objects(entries: seq<Entry>): set<object> {
    set e | e in entries :: e.Object()
  }

  /** The registered buffers that still have a strong reference, in order. */
  function Valid(entries: seq<Entry>, alive: set<object>): (r: seq<Entry>)
    ensures forall e | e in r :: e in entries && e.Object() in alive
    ensures forall e | e in entries && e.Object() in alive :: e in r
  {
    if entries == [] then []
    else (if entries[0].Object() in alive then [entries[0]] else []) + Valid(entries[1..], alive)
  }

  class SurfaceCommitAwareBufferManager {
    var registry: seq<Entry>

    constructor ()
      ensures registry == []
    {
      registry := [];
    }

    method Register(e: Entry)
      modifies this
      ensures registry == old(registry) + [e]
    {
      registry := registry + [e];
    }

    /** Whether or not the surface can still be upgraded, the answer is no. */
    method RequiresSurfaceSyncronization(surfaceAlive: bool) returns (r: bool)
      ensures !r
    {
      if surfaceAlive {
        r := false;
      } else {
        r := false;
      }
    }

    /** Forgets dead buffers and moves every live one on, each exactly once. */
    method UpdateCurrent(alive: set<object>)
      requires this !in Objects(registry) && Distinct(registry)
      requires forall e | e in registry :: e.HasItsOps()
      modifies this, Objects(registry)
      ensures registry == Valid(old(registry), alive)
      ensures forall e | e in registry :: e.Updated()
      ensures forall e | e in old(registry) && e !in registry :: unchanged(e.Object())
    {
      ghost var was := registry;
      registry := Valid(registry, alive);
      ValidKeepsDistinct(was, alive);
      assert Objects(registry) <= Objects(was);
      forall d | d in was && d !in registry ensures d.Object() !in Objects(registry) {
        forall e | e in registry ensures e.Object() != d.Object() {
          DistinctObjects(was, d, e);
        }
      }
      MoveAllOn(registry);
    }
  }

  method MoveAllOn(entries: seq<Entry>)
    requires Distinct(entries) && forall e | e in entries :: e.HasItsOps()
    modifies Objects(entries)
    ensures forall e | e in entries :: e.Updated()
  {
    var i := 0;
    while i < |entries|
      invariant 0 <= i <= |entries|
      invariant forall k | 0 <= k < i :: entries[k].Updated()
      invariant forall k | i <= k < |entries| :: unchanged(entries[k].Object())
    {
      var e := entries[i];
      assert e.Object() in Objects(entries);
      label before:
      e.MoveOn();
      forall k | 0 <= k < |entries| && k != i ensures unchanged@before(entries[k].Object()) {
        assert if k < i then entries[k].Object() != entries[i].Object() else entries[i].Object() != entries[k].Object();
      }
      i := i + 1;
    }
  }

  ghost predicate Distinct(entries: seq<Entry>) {
    forall i, j | 0 <= i < j < |entries| :: entries[i].Object() != entries[j].Object()
  }

  lemma DistinctObjects(entries: seq<Entry>, d: Entry, e: Entry)
    requires Distinct(entries) && d in entries && e in entries && d != e
    ensures d.Object() != e.Object()
  {
    var i :| 0 <= i < |entries| && entries[i] == d;
    var j :| 0 <= j < |entries| && entries[j] == e;
    assert if i < j then entries[i].Object() != entries[j].Object() else entries[j].Object() != entries[i].Object();
  }

  lemma TailIsDistinct(entries: seq<Entry>)
    requires Distinct(entries) && entries != []
    ensures Distinct(entries[1..]) && forall e | e in entries[1..] :: e.Object() != entries[0].Object()
  {
    var rest := entries[1..];
    forall i, j | 0 <= i < j < |rest| ensures rest[i].Object() != rest[j].Object() {
      assert entries[i + 1].Object() != entries[j + 1].Object();
    }
    forall e | e in rest ensures e.Object() != entries[0].Object() {
      var k :| 0 <= k < |rest| && rest[k] == e;
      assert entries[0].Object() != entries[k + 1].Object();
    }
  }

  lemma ConsIsDistinct(e: Entry, rest: seq<Entry>)
    requires Distinct(rest) && forall d | d in rest :: d.Object() != e.Object()
    ensures Distinct([e] + rest)
  {
    var all := [e] + rest;
    forall i, j | 0 <= i < j < |all| ensures all[i].Object() != all[j].Object() {
      assert all[j] == rest[j - 1] && rest[j - 1] in rest;
    }
  }

  lemma {:induction false} ValidKeepsDistinct(entries: seq<Entry>, alive: set<object>)
    requires Distinct(entries)
    ensures Distinct(Valid(entries, alive))
  {
    if entries != [] {
      TailIsDistinct(entries);
      ValidKeepsDistinct(entries[1..], alive);
      var v := Valid(entries[1..], alive);
      if entries[0].Object() in alive {
        ConsIsDistinct(entries[0], v);
      } else {
        assert Valid(entries, alive) == [] + v == v;
      }
    }
  }

  // ---------------------------------------------------------------------------------------------
  // Three stages refine a double buffer
  // ---------------------------------------------------------------------------------------------

  /** What happens to one buffer while its lock is held, by any task. */
  datatype Event<!S> =
    | Edit(request: S -> S)      // a request edits `pending`
    | Commit
    | Update                     // `set_desync` or a recursive update
    | Take(taken: S -> S)        // the frame task edits `current`

  function After<S>(ops: BufferedState<S>, st: Stages<S>, e: Event<S>): Stages<S> {
    match e
    case Edit(f) => st.(pending := f(st.pending))
    case Commit => Committed(ops, st)
    case Update => CurrentUpdated(ops, st)
    case Take(f) => st.(current := f(st.current))
  }

  function AfterAll<S>(ops: BufferedState<S>, st: Stages<S>, es: seq<Event<S>>): Stages<S> {
    if es == [] then st else After(ops, AfterAll(ops, st, es[..|es| - 1]), es[|es| - 1])
  }

  /** The double buffer: what the last commit found in `pending`, or the initial state. */
  function LastCommitted<S, V>(ops: BufferedState<S>, view: S -> V, s: S, es: seq<Event<S>>): V {
    if es == [] then view(s)
    else
      var before := es[..|es| - 1];
      if es[|es| - 1].Commit? then view(AfterAll(ops, Initial(ops, s), before).pending)
      else LastCommitted(ops, view, s, before)
  }

  /** `view` is the part of a state that `apply` copies and leaves in place. */
  ghost predicate Copies<S(!new), V>(ops: BufferedState<S>, view: S -> V) {
    && (forall d, s :: view(ops.apply(d, s).0) == view(s) && view(ops.apply(d, s).1) == view(s))
    && (forall s :: view(ops.initialPending(s)) == view(s))
  }

  /** The frame task takes only what `view` does not show. */
  ghost predicate TakesNothingSeen<S(!new), V>(view: S -> V, es: seq<Event<S>>) {
    forall i, s | 0 <= i < |es| && es[i].Take? :: view(es[i].taken(s)) == view(s)
  }

  lemma {:induction false} RefinesDoubleBuffer<S(!new), V>(ops: BufferedState<S>, view: S -> V, s: S, es: seq<Event<S>>)
    requires Copies(ops, view) && TakesNothingSeen(view, es)
    ensures var st := AfterAll(ops, Initial(ops, s), es);
            view(st.current) == view(st.applied) == LastCommitted(ops, view, s, es)
    decreases |es|
  {
    if es != [] {
      var before := es[..|es| - 1];
      assert forall i | 0 <= i < |before| :: before[i] == es[i];
      RefinesDoubleBuffer(ops, view, s, before);
      assert es[|es| - 1].Take? ==> forall t :: view(es[|es| - 1].taken(t)) == view(t);
    }
  }

  /** A surface state without its callbacks. */
  function Shown(s: SurfaceState): SurfaceState {
    s.(frameCallbacks := [])
  }

  function TakeCallbacks(s: SurfaceState): SurfaceState {
    s.(frameCallbacks := [])
  }

  /** For a surface, under any mix of requests, commits, updates and frame events. */
  lemma SurfaceRefinesDoubleBuffer(es: seq<Event<SurfaceState>>)
    requires forall e | e in es && e.Take? :: e.taken == TakeCallbacks
    ensures var st := AfterAll(SURFACE, Initial(SURFACE, DEFAULT_SURFACE), es);
            Shown(st.current) == LastCommitted(SURFACE, Shown, DEFAULT_SURFACE, es)
  {
    RefinesDoubleBuffer(SURFACE, Shown, DEFAULT_SURFACE, es);
  }

  lemma SubsurfaceRefinesDoubleBuffer(es: seq<Event<SubsurfaceState>>)
    requires forall e | e in es :: !e.Take?
    ensures var st := AfterAll(SUBSURFACE, Initial(SUBSURFACE, DEFAULT_SUBSURFACE), es);
            st.current == LastCommitted(SUBSURFACE, (s: SubsurfaceState) => s, DEFAULT_SUBSURFACE, es)
  {
    RefinesDoubleBuffer(SUBSURFACE, (s: SubsurfaceState) => s, DEFAULT_SUBSURFACE, es);
  }
}
