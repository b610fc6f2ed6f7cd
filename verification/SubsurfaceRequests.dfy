/** Where a sub-surface is shown, in terms of the requests alone: the position last set, the buffer last
    attached, the sibling last placed beside and the first parent, each read off a run's steps. */
module SubsurfaceRequests {
  import opened Wrappers
  import opened CommitState
  import opened Subsurface
  import P = PanelChildren

  /** The position last set on object `k`, or the origin. Objects are numbered in order of creation. */
  function PositionAsked(steps: seq<Step>, k: nat): (int, int) {
    if steps == [] then (0, 0)
    else
      var before, a := steps[..|steps| - 1], steps[|steps| - 1];
      if a.SetPosition? && a.k == k then (a.x, a.y) else PositionAsked(before, k)
  }

  /** The buffer last attached to the surface, if any. */
  function BufferAsked(steps: seq<Step>): Option<Buffer> {
    if steps == [] then None
    else
      var before, a := steps[..|steps| - 1], steps[|steps| - 1];
      if a.Attach? then a.buffer else BufferAsked(before)
  }

  /** The steps before the last commit. */
  function BeforeCommit(steps: seq<Step>): seq<Step> {
    if steps == [] then []
    else
      var before, a := steps[..|steps| - 1], steps[|steps| - 1];
      if a.Commit? then before else BeforeCommit(before)
  }

  function ObjectsMade(steps: seq<Step>): nat {
    if steps == [] then 0
    else ObjectsMade(steps[..|steps| - 1]) + if steps[|steps| - 1].GetSubsurface? then 1 else 0
  }

  /** The parent of the first sub-surface object, which is the surface's for life. */
  function FirstParent(steps: seq<Step>): Option<nat> {
    if steps == [] then None
    else
      var before, a := steps[..|steps| - 1], steps[|steps| - 1];
      if FirstParent(before).None? && a.GetSubsurface? then Some(a.parent) else FirstParent(before)
  }

  // ---------------------------------------------------------------------------------------------
  // The state is what was asked
  // ---------------------------------------------------------------------------------------------

  /** What waits for a commit is what was asked last; nothing was asked of an object before it existed. */
  ghost predicate PendingFollows(w: World, steps: seq<Step>) {
    && |w.objects| == ObjectsMade(steps)
    && w.state.pending.buffer == BufferAsked(steps)
    && forall k: nat :: PositionAsked(steps, k) == if k < |w.objects| then Position(w.objects[k].state.pending) else (0, 0)
  }

  function Position(s: SubsurfaceState): (int, int) {
    (s.x, s.y)
  }

  /** What was committed last is what was asked before the last commit. */
  ghost predicate CommittedFollows(w: World, steps: seq<Step>) {
    && w.state.current.buffer == w.state.applied.buffer == BufferAsked(BeforeCommit(steps))
    && forall k: nat | k < |w.objects| && w.objects[k].alive ::
         Position(w.objects[k].committed) == PositionAsked(BeforeCommit(steps), k)
  }

  /** The stages and the objects change in a commit, an update and a new object only as `Next` names them;
      anything else leaves all but what is pending. */
  lemma HandlersLeaveState(w: World)
    ensures HandlersRun(w).state == w.state && HandlersRun(w).objects == w.objects
    ensures HandlersRun(w).parent == w.parent && HandlersRun(w).others == w.others
  {
    RunKeeps(w, w.handlers);
  }

  /** Past a step that is no request of its own about positions, buffers or objects. */
  lemma AskedKept(steps: seq<Step>, a: Step, k: nat)
    requires !a.GetSubsurface? && !a.Attach?
    ensures ObjectsMade(steps + [a]) == ObjectsMade(steps) && BufferAsked(steps + [a]) == BufferAsked(steps)
    ensures !a.SetPosition? ==> PositionAsked(steps + [a], k) == PositionAsked(steps, k)
  {
    assert (steps + [a])[..|steps|] == steps;
  }

  ghost predicate SamePending(w: World, v: World) {
    && |v.objects| == |w.objects| && v.state.pending.buffer == w.state.pending.buffer
    && forall k | 0 <= k < |w.objects| :: Position(v.objects[k].state.pending) == Position(w.objects[k].state.pending)
  }

  lemma QuietKeepsPending(w: World, a: Step)
    requires Enabled(w, a) && !a.GetSubsurface? && !a.SetPosition? && !a.Attach?
    ensures SamePending(w, Next(w, a))
  {
    match a
    case Commit(sync) => HandlersLeaveState(BeforeHandlers(w, sync));
    case Update => HandlersLeaveState(MovedOn(w));
    case _ =>
  }

  lemma PendingAfterQuiet(w: World, v: World, steps: seq<Step>, a: Step)
    requires PendingFollows(w, steps) && SamePending(w, v) && !a.GetSubsurface? && !a.SetPosition? && !a.Attach?
    ensures PendingFollows(v, steps + [a])
  {
    forall k: nat ensures PositionAsked(steps + [a], k)
                  == if k < |v.objects| then Position(v.objects[k].state.pending) else (0, 0) {
      AskedKept(steps, a, k);
    }
    AskedKept(steps, a, 0);
  }

  lemma PendingAfterStep(w: World, steps: seq<Step>, a: Step)
    requires PendingFollows(w, steps) && Enabled(w, a)
    ensures PendingFollows(Next(w, a), steps + [a])
  {
    assert (steps + [a])[..|steps|] == steps;
    if !a.GetSubsurface? && !a.SetPosition? && !a.Attach? {
      QuietKeepsPending(w, a);
      PendingAfterQuiet(w, Next(w, a), steps, a);
    }
  }

  lemma CommittedAfterCommit(w: World, steps: seq<Step>, sync: bool)
    requires PendingFollows(w, steps)
    ensures CommittedFollows(Next(w, Step.Commit(sync)), steps + [Step.Commit(sync)])
  {
    assert (steps + [Step.Commit(sync)])[..|steps|] == steps;
    HandlersLeaveState(BeforeHandlers(w, sync));
  }

  /** A new object has nothing committed, and nothing was asked of it before the last commit. */
  lemma CommittedAfterCreated(w: World, steps: seq<Step>, p: nat, c: nat)
    requires CommittedFollows(w, steps) && PositionAsked(BeforeCommit(steps), |w.objects|) == (0, 0) && p in w.others
    ensures CommittedFollows(Created(w, p, c), steps + [GetSubsurface(p, c)])
  {
    assert (steps + [GetSubsurface(p, c)])[..|steps|] == steps;
  }

  lemma CommittedAfterOther(w: World, steps: seq<Step>, a: Step)
    requires CommittedFollows(w, steps) && Enabled(w, a) && !a.Commit? && !a.GetSubsurface?
    ensures CommittedFollows(Next(w, a), steps + [a])
  {
    assert (steps + [a])[..|steps|] == steps;
    if a.Update? {
      HandlersLeaveState(MovedOn(w));
    }
  }

  /** What was not asked by now was not asked before the last commit. */
  lemma {:induction false} NotAskedBefore(steps: seq<Step>, k: nat)
    requires forall a | a in steps :: !(a.SetPosition? && a.k == k)
    ensures PositionAsked(BeforeCommit(steps), k) == (0, 0) && PositionAsked(steps, k) == (0, 0)
    decreases |steps|
  {
    if steps != [] {
      assert steps[|steps| - 1] in steps;
      NotAskedBefore(steps[..|steps| - 1], k);
    }
  }

  /** Only objects that exist are moved. */
  ghost predicate MovesExist(w: World, steps: seq<Step>) {
    forall a | a in steps && a.SetPosition? :: a.k < |w.objects|
  }

  lemma MovesExistAfter(w: World, steps: seq<Step>, a: Step)
    requires MovesExist(w, steps) && Enabled(w, a)
    ensures MovesExist(Next(w, a), steps + [a])
  {
    assert forall b | b in steps + [a] :: b in steps || b == a;
    if a.Commit? {
      HandlersLeaveState(BeforeHandlers(w, a.sync));
    } else if a.Update? {
      HandlersLeaveState(MovedOn(w));
    }
  }

  ghost predicate Follows(w: World, steps: seq<Step>) {
    PendingFollows(w, steps) && CommittedFollows(w, steps) && MovesExist(w, steps)
  }

  lemma CommittedAfterStep(w: World, steps: seq<Step>, a: Step)
    requires Follows(w, steps) && Enabled(w, a)
    ensures CommittedFollows(Next(w, a), steps + [a])
  {
    match a
    case Commit(sync) => CommittedAfterCommit(w, steps, sync);
    case GetSubsurface(p, c) =>
      NotAskedBefore(steps, |w.objects|);
      CommittedAfterCreated(w, steps, p, c);
    case _ => CommittedAfterOther(w, steps, a);
  }

  lemma FollowsAfter(w: World, steps: seq<Step>, a: Step, v: World, more: seq<Step>)
    requires Follows(w, steps) && Enabled(w, a) && v == Next(w, a) && more == steps + [a]
    ensures Follows(v, more)
  {
    PendingAfterStep(w, steps, a);
    CommittedAfterStep(w, steps, a);
    MovesExistAfter(w, steps, a);
  }

  lemma {:induction false} EveryRunFollows(w: World, steps: seq<Step>)
    requires Reachable(w, steps)
    ensures Follows(w, steps)
    decreases |steps|
  {
    if steps != [] {
      var last := |steps| - 1;
      var v :| Reachable(v, steps[..last]) && Enabled(v, steps[last]) && w == Next(v, steps[last]);
      EveryRunFollows(v, steps[..last]);
      assert steps[..last] + [steps[last]] == steps;
      FollowsAfter(v, steps[..last], steps[last], w, steps);
    }
  }

  /** In every run what is pending is what was asked last: the position of each object, and the buffer. */
  lemma PendingIsAsAsked(w: World, steps: seq<Step>, k: nat)
    requires Reachable(w, steps) && k < |w.objects|
    ensures (w.objects[k].state.pending.x, w.objects[k].state.pending.y) == PositionAsked(steps, k)
    ensures w.state.pending.buffer == BufferAsked(steps)
  {
    EveryRunFollows(w, steps);
  }

  // ---------------------------------------------------------------------------------------------
  // Where the surface is shown
  // ---------------------------------------------------------------------------------------------

  /** The panel lists the surface at `position`, with the size of `buffer`. */
  ghost predicate ShownAt(w: World, position: (int, int), buffer: Buffer)
    requires Listed(w)
  {
    var entry := w.items[w.toplevel.value].children[P.ChildId(w.Surface()).value].1;
    entry.geometry == P.Geometry(position.0, position.1, buffer.width, buffer.height)
  }

  predicate HasArea(buffer: Option<Buffer>) {
    buffer.Some? && buffer.value.width > 0 && buffer.value.height > 0
  }

  lemma ShownWherePlaced(v: World, s: SubsurfaceState, buffer: Option<Buffer>)
    requires PlacedAt(v, s) && Listed(v) && v.state.current.buffer == buffer && HasArea(buffer)
    ensures ShownAt(v, Position(s), buffer.value)
  {
  }

  /** Neither a commit nor an update makes or ends an object. */
  lemma NewestBefore(w: World, u: World, k: nat)
    requires u == BeforeHandlers(w, true) || u == BeforeHandlers(w, false) || u == MovedOn(w)
    ensures Newest(HandlersRun(u), k) <==> Newest(w, k)
    ensures HandlersRun(u).state == u.state
  {
    HandlersLeaveState(u);
    assert |u.objects| == |w.objects|;
    assert forall j | 0 <= j < |w.objects| :: u.objects[j].alive == w.objects[j].alive;
  }

  lemma CommitShows(w: World, steps: seq<Step>, sync: bool, k: nat)
    requires Reachable(w, steps) && Newest(w, k) && Listed(Next(w, Step.Commit(sync))) && HasArea(BufferAsked(steps))
    ensures ShownAt(Next(w, Step.Commit(sync)), PositionAsked(steps, k), BufferAsked(steps).value)
  {
    PendingIsAsAsked(w, steps, k);
    CommitPlaces(w, steps, k, sync);
    ShownWherePlaced(Next(w, Step.Commit(sync)), w.objects[k].state.pending, BufferAsked(steps));
  }

  /** After a commit a surface that is listed is at the position last set on its newest live object, with
      the size of the buffer last attached. */
  lemma CommitShowsWhatWasAsked(v: World, steps: seq<Step>, sync: bool, k: nat)
    requires Reachable(v, steps + [Step.Commit(sync)]) && Newest(v, k) && Listed(v) && HasArea(BufferAsked(steps))
    ensures ShownAt(v, PositionAsked(steps, k), BufferAsked(steps).value)
  {
    var w := Before(v, steps, Step.Commit(sync));
    NewestBefore(w, BeforeHandlers(w, sync), k);
    CommitShows(w, steps, sync, k);
  }

  lemma Before(v: World, steps: seq<Step>, a: Step) returns (w: World)
    requires Reachable(v, steps + [a])
    ensures Reachable(w, steps) && Enabled(w, a) && v == Next(w, a)
  {
    var more := steps + [a];
    assert more[..|more| - 1] == steps;
    w :| Reachable(w, steps) && Enabled(w, a) && v == Next(w, a);
  }

  lemma CommittedIsAsAsked(w: World, steps: seq<Step>, k: nat)
    requires Reachable(w, steps) && w.Alive(k)
    ensures Position(w.objects[k].committed) == PositionAsked(BeforeCommit(steps), k)
    ensures MovedOn(w).state.current.buffer == BufferAsked(BeforeCommit(steps))
  {
    EveryRunFollows(w, steps);
  }

  lemma UpdateShows(w: World, steps: seq<Step>, k: nat)
    requires Reachable(w, steps) && Newest(w, k) && Listed(Next(w, Step.Update))
    requires HasArea(BufferAsked(BeforeCommit(steps)))
    ensures ShownAt(Next(w, Step.Update), PositionAsked(BeforeCommit(steps), k), BufferAsked(BeforeCommit(steps)).value)
  {
    CommittedIsAsAsked(w, steps, k);
    UpdatePlaces(w, steps, k);
    NewestBefore(w, MovedOn(w), k);
    ShownWherePlaced(Next(w, Step.Update), w.objects[k].committed, BufferAsked(BeforeCommit(steps)));
  }

  /** An update without a commit of its own leaves it where the last commit was asked to put it. */
  lemma UpdateShowsWhatWasCommitted(v: World, steps: seq<Step>, k: nat)
    requires Reachable(v, steps + [Step.Update]) && Newest(v, k) && Listed(v)
    requires HasArea(BufferAsked(BeforeCommit(steps)))
    ensures ShownAt(v, PositionAsked(BeforeCommit(steps), k), BufferAsked(BeforeCommit(steps)).value)
  {
    var w := Before(v, steps, Step.Update);
    NewestBefore(w, MovedOn(w), k);
    UpdateShows(w, steps, k);
  }

  // ---------------------------------------------------------------------------------------------
  // The z-order that is pending
  // ---------------------------------------------------------------------------------------------

  /** How many steps the last request to place object `k` beside a sibling ends. */
  function LastPlaced(steps: seq<Step>, k: nat): (n: nat)
    ensures n <= |steps| && (n > 0 ==> steps[n - 1].PlaceBy? && steps[n - 1].k == k)
  {
    if steps == [] then 0
    else
      var a := steps[|steps| - 1];
      if a.PlaceBy? && a.k == k then |steps| else LastPlaced(steps[..|steps| - 1], k)
  }

  /** The z-order a request to place beside `sibling` asks for in `w`. */
  ghost predicate Beside(w: World, sibling: Option<nat>, above: bool, z: int) {
    var step := if above then 1 else -1;
    var t := w.ParentToplevel();
    if sibling.Some? && t.Some? && t.value in w.items && sibling.value in w.items[t.value].children
    then z == w.items[t.value].children[sibling.value].1.zOrder + step
    else z == step
  }

  lemma QuietKeepsZOrder(w: World, a: Step, k: nat)
    requires Enabled(w, a) && !a.GetSubsurface? && !(a.PlaceBy? && a.k == k) && k < |w.objects|
    ensures k < |Next(w, a).objects|
    ensures Next(w, a).objects[k].state.pending.zOrder == w.objects[k].state.pending.zOrder
  {
    match a
    case Commit(sync) => HandlersLeaveState(BeforeHandlers(w, sync));
    case Update => HandlersLeaveState(MovedOn(w));
    case _ =>
  }

  lemma QuietMakesNoObject(w: World, a: Step)
    requires Enabled(w, a) && !a.GetSubsurface?
    ensures |Next(w, a).objects| == |w.objects|
  {
    match a
    case Commit(sync) => HandlersLeaveState(BeforeHandlers(w, sync));
    case Update => HandlersLeaveState(MovedOn(w));
    case _ =>
  }

  /** No object is placed before it exists. */
  lemma {:induction false} NotPlacedBefore(w: World, steps: seq<Step>, k: nat)
    requires Reachable(w, steps) && k >= |w.objects|
    ensures LastPlaced(steps, k) == 0
    decreases |steps|
  {
    if steps != [] {
      var last := |steps| - 1;
      var v :| Reachable(v, steps[..last]) && Enabled(v, steps[last]) && w == Next(v, steps[last]);
      if !steps[last].GetSubsurface? {
        QuietMakesNoObject(v, steps[last]);
      }
      NotPlacedBefore(v, steps[..last], k);
    }
  }

  /** The pending z-order `z` of object `k` was asked for in `v`, which the steps before the request reach,
      or is 0 if no request placed it. */
  ghost predicate ZOrderFrom(v: World, steps: seq<Step>, k: nat, z: int) {
    var n := LastPlaced(steps, k);
    if n == 0 then z == 0
    else Reachable(v, steps[..n - 1]) && Beside(v, steps[n - 1].sibling, steps[n - 1].above, z)
  }

  lemma ZOrderGoesOn(v: World, steps: seq<Step>, a: Step, k: nat, z: int)
    requires ZOrderFrom(v, steps, k, z) && !(a.PlaceBy? && a.k == k)
    ensures ZOrderFrom(v, steps + [a], k, z)
  {
    var more := steps + [a];
    assert more[..|steps|] == steps;
    var n := LastPlaced(steps, k);
    assert LastPlaced(more, k) == n;
    if n > 0 {
      assert more[..n - 1] == steps[..n - 1] && more[n - 1] == steps[n - 1];
    }
  }

  lemma ZOrderNow(w: World, steps: seq<Step>, a: Step)
    requires Reachable(w, steps) && Enabled(w, a) && a.PlaceBy?
    ensures ZOrderFrom(w, steps + [a], a.k, Next(w, a).objects[a.k].state.pending.zOrder)
  {
    assert (steps + [a])[..|steps|] == steps;
  }

  lemma ZOrderOfNew(w: World, steps: seq<Step>, a: Step)
    requires Reachable(w, steps) && Enabled(w, a) && a.GetSubsurface?
    ensures ZOrderFrom(w, steps + [a], |w.objects|, 0)
  {
    NotPlacedBefore(w, steps, |w.objects|);
    ZOrderGoesOn(w, steps, a, |w.objects|, 0);
  }

  lemma ZOrderAfter(x: World, u: World, before: seq<Step>, a: Step, w: World, steps: seq<Step>, k: nat)
    returns (v: World)
    requires Reachable(u, before) && Enabled(u, a) && w == Next(u, a) && steps == before + [a] && k < |w.objects|
    requires k < |u.objects| ==> ZOrderFrom(x, before, k, u.objects[k].state.pending.zOrder)
    ensures ZOrderFrom(v, steps, k, w.objects[k].state.pending.zOrder)
  {
    v := u;
    if a.PlaceBy? && a.k == k {
      ZOrderNow(u, before, a);
    } else if a.GetSubsurface? && k == |u.objects| {
      ZOrderOfNew(u, before, a);
    } else {
      if !a.GetSubsurface? {
        QuietMakesNoObject(u, a);
        QuietKeepsZOrder(u, a, k);
      }
      v := x;
      ZOrderGoesOn(v, before, a, k, u.objects[k].state.pending.zOrder);
    }
  }

  /** An object's pending z-order is the one the last request to place it asked for, in the world it met,
      or 0 without one: nothing else changes it. */
  lemma {:induction false} ZOrderIsAsAsked(w: World, steps: seq<Step>, k: nat) returns (v: World)
    requires Reachable(w, steps) && k < |w.objects|
    ensures ZOrderFrom(v, steps, k, w.objects[k].state.pending.zOrder)
    decreases |steps|
  {
    if steps == [] {
      v := w;
    } else {
      var last := |steps| - 1;
      var u :| Reachable(u, steps[..last]) && Enabled(u, steps[last]) && w == Next(u, steps[last]);
      var x := u;
      if k < |u.objects| {
        x := ZOrderIsAsAsked(u, steps[..last], k);
      }
      assert steps[..last] + [steps[last]] == steps;
      v := ZOrderAfter(x, u, steps[..last], steps[last], w, steps, k);
    }
  }

  // ---------------------------------------------------------------------------------------------
  // The surface it is under
  // ---------------------------------------------------------------------------------------------

  lemma {:induction false} ParentIsTheFirst(w: World, steps: seq<Step>)
    requires Reachable(w, steps)
    ensures w.parent == FirstParent(steps)
    decreases |steps|
  {
    if steps != [] {
      var last := |steps| - 1;
      var v :| Reachable(v, steps[..last]) && Enabled(v, steps[last]) && w == Next(v, steps[last]);
      ParentIsTheFirst(v, steps[..last]);
      match steps[last]
      case Commit(sync) => HandlersLeaveState(BeforeHandlers(v, sync));
      case Update => HandlersLeaveState(MovedOn(v));
      case _ =>
    }
  }

  /** The child id of a surface's parent; a parent that is gone, or is no child itself, has none. */
  function IdOf(others: map<nat, Other>, parent: Option<nat>): Option<nat> {
    if parent.Some? && parent.value in others then P.ChildId(P.Surface(parent.value, others[parent.value].target)) else None
  }

  /** An entry that was not there before is under `id`. */
  ghost predicate NewAreUnder(before: map<nat, P.Backend>, now: map<nat, P.Backend>, id: Option<nat>) {
    forall t, c | t in before && t in now && c in now[t].children ::
      (c in before[t].children && now[t].children[c].1.parent == before[t].children[c].1.parent)
      || now[t].children[c].1.parent == id
  }

  /** Only an addition lists a child anew, and gives it its parent. */
  lemma OnlyAddsParent(b: P.Backend, r: P.Request, c: nat)
    requires c in P.Handled(b, r).children
    ensures (c in b.children && P.Handled(b, r).children[c].1.parent == b.children[c].1.parent)
         || (r.Add? && P.Handled(b, r).children[c].1.parent == r.info.parent)
  {
  }

  lemma TellingAddsUnder(w: World, t: nat, r: P.Request, id: Option<nat>)
    requires t in w.items && (r.Add? ==> r.info.parent == id)
    ensures NewAreUnder(w.items, w.Tell(t, r).items, id)
  {
    forall c | c in P.Handled(w.items[t], r).children
      ensures (c in w.items[t].children && P.Handled(w.items[t], r).children[c].1.parent == w.items[t].children[c].1.parent)
           || P.Handled(w.items[t], r).children[c].1.parent == id
    {
      OnlyAddsParent(w.items[t], r, c);
    }
  }

  lemma OneAddsUnder(w: World, h: Handler)
    ensures NewAreUnder(w.items, RunOne(w, h).0.items, IdOf(w.others, w.parent))
  {
    var id := IdOf(w.others, w.parent);
    if RunOne(w, h).0 != w {
      if h.AddChildOnce? {
        var u := w.(toplevel := w.ParentToplevel(), added := w.added + [h.k]);
        TellingAddsUnder(u, w.ParentToplevel().value, P.Add(w.Surface(), w.ChildInfo(h.k)), id);
      } else {
        var s, t := w.objects[h.k].state.current, w.toplevel.value;
        TellingAddsUnder(w, t, P.Reposition(w.Surface(), w.Place(s)), id);
        TellingAddsUnder(w.Tell(t, P.Reposition(w.Surface(), w.Place(s))), t, P.UpdateZOrder(w.Surface(), s.zOrder), id);
      }
    }
  }

  lemma {:induction false} RunAddsUnder(w: World, hs: seq<Handler>)
    ensures NewAreUnder(w.items, RunHandlers(w, hs).0.items, IdOf(w.others, w.parent))
    decreases |hs|
  {
    if hs != [] {
      OneAddsUnder(w, hs[0]);
      RunKeeps(w, [hs[0]]);
      RunAddsUnder(RunOne(w, hs[0]).0, hs[1..]);
    }
  }

  /** A commit that lists the surface anew lists it under its first parent, if that is a child itself, and
      else under the toplevel. */
  lemma CommitListsUnderTheParent(w: World, steps: seq<Step>, sync: bool, t: nat, id: nat)
    requires Reachable(w, steps) && t in w.items && id !in w.items[t].children
    ensures var v := Next(w, Step.Commit(sync));
            t in v.items
            && (id in v.items[t].children ==> v.items[t].children[id].1.parent == IdOf(w.others, FirstParent(steps)))
  {
    ParentIsTheFirst(w, steps);
    var u := BeforeHandlers(w, sync);
    RunAddsUnder(u, u.handlers);
    RunKeeps(u, u.handlers);
  }

  /** Destroying an object takes the surface off the panel of its first parent, and leaves every other
      child and every other panel as they are; a parent that has no panel changes nothing there. */
  lemma DestroyUnlists(v: World, steps: seq<Step>, k: nat) returns (w: World)
    requires Reachable(v, steps + [Destroy(k)])
    ensures Reachable(w, steps) && !v.Alive(k) && v.items.Keys == w.items.Keys
    ensures var (id, t) := (P.ChildId(w.Surface()), PanelOf(w, FirstParent(steps)));
            && id.Some?
            && (t.Some? ==> v.items[t.value].children == w.items[t.value].children - {id.value})
            && forall x | x in w.items && t != Some(x) :: v.items[x] == w.items[x]
  {
    w := Before(v, steps, Destroy(k));
    ParentIsTheFirst(w, steps);
    IsRegistered(w, steps);
    HasTarget(w, k);
  }

  /** The panel of a parent's toplevel, while that toplevel is mapped. */
  function PanelOf(w: World, parent: Option<nat>): Option<nat> {
    if parent.Some? && parent.value in w.others && w.others[parent.value].toplevel.Some?
       && w.others[parent.value].toplevel.value in w.items
    then w.others[parent.value].toplevel
    else None
  }

  /** A new object shows its surface in the toplevel its parent has by then. */
  lemma NewObjectTakesTheToplevel(v: World, steps: seq<Step>, p: nat, c: nat)
    requires Reachable(v, steps + [GetSubsurface(p, c)])
    ensures p in v.others && v.toplevel == v.others[p].toplevel
  {
    var w := Before(v, steps, GetSubsurface(p, c));
  }
}
