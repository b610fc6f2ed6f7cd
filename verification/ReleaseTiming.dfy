/** When the client is told that a buffer is released: not before the buffer's timeline reached the
    release point, which only a signal can make it do, and not twice. The runs are those of
    `BufferRelease`. */
module ReleaseTiming {
  import opened Wrappers
  import opened BufferRelease

  // ---------------------------------------------------------------------------------------------
  // What each kind of step leaves alone
  // ---------------------------------------------------------------------------------------------

  /** Nobody signals, wakes or is spawned. */
  ghost predicate Quiet(w: World, v: World) {
    v.clocks == w.clocks && v.selfSignals == w.selfSignals && v.waiters == w.waiters && v.sent == w.sent
  }

  lemma MakingIsQuiet(w: World, a: Step)
    requires Enabled(w, a) && MakesSubmit(a)
    ensures Next(w, a).sent == w.sent
    ensures !a.MakeHandler? || a.ok ==> Next(w, a).clocks == w.clocks && Next(w, a).selfSignals == w.selfSignals
    ensures !a.AbortOld? && !a.SpawnWaiter? ==> Next(w, a).waiters == w.waiters
  {
    match a
    case BeginUpdate(c, b) => assert Quiet(w, Begun(w, c, b));
    case IssueRelease(c) => assert Quiet(w, Issued(w, c, NeedsWaiter));
    case IssueReapply(c) => assert Quiet(w, Issued(w, c, NeedsAbort));
    case AbortOld(c) => assert OldAborted(w, c).sent == w.sent;
    case SpawnWaiter(c) => assert WaiterSpawned(w, c).sent == w.sent;
    case MakeHandler(c, ok) => assert HandlerMade(w, c, ok).sent == w.sent;
    case DropOld(c) => assert Quiet(w, Next(w, a));
  }

  lemma StoringIsQuiet(w: World, c: nat, slot: Place, evicted: Option<nat>)
    requires c in w.chains && (evicted.Some? ==> evicted.value in w.chains)
    ensures Quiet(w, Stored(w, c, slot, evicted)) && Stored(w, c, slot, evicted).handlers == w.handlers
  {
  }

  lemma MovingIsQuiet(w: World, a: Step)
    requires Enabled(w, a) && MovesSubmit(a)
    ensures Quiet(w, Next(w, a))
  {
    match a
    case TakeForReapply(c) => assert Quiet(w, Moved(w, c, ToReapply));
    case Publish(c, accepted) => assert Quiet(w, SentToPeer(w, c, accepted));
    case StoreCurrent(c, s, evicted) => StoringIsQuiet(w, c, InCurrent(s), evicted);
    case StoreBuffered(c, s, evicted) => StoringIsQuiet(w, c, InBuffered(s), evicted);
    case TakeBuffered(c) => assert Quiet(w, Moved(w, c, InHand));
    case Discard(c) => assert Quiet(w, Moved(w, c, Dropping));
    case DropSubmit(c) => assert Quiet(w, LocalDropped(w, c, Gone, Newest(w.chains[c])));
  }

  // ---------------------------------------------------------------------------------------------
  // No release is sent twice
  // ---------------------------------------------------------------------------------------------

  /** The points sent are distinct, and are those whose waiter finished. */
  ghost predicate SentOnce(waiters: map<Point, Waiter>, sent: seq<Point>) {
    && (forall i, j | 0 <= i < j < |sent| :: sent[i] != sent[j])
    && (forall p :: p in sent <==> p in waiters && waiters[p].finished)
  }

  lemma FinishingKeepsSentOnce(waiters: map<Point, Waiter>, sent: seq<Point>, p: Point)
    requires SentOnce(waiters, sent) && p in waiters && !waiters[p].finished
    ensures SentOnce(waiters[p := waiters[p].(finished := true)], sent + [p])
  {
    assert (sent + [p])[|sent|] == p;
    assert forall q :: q in sent + [p] <==> q in sent || q == p;
  }

  /** A waiter is only ever spawned on a point that has none. */
  lemma SpawningKeepsSentOnce(w: World, c: nat)
    requires Inv(w) && SentOnce(w.waiters, w.sent) && Enabled(w, SpawnWaiter(c))
    ensures SentOnce(WaiterSpawned(w, c).waiters, w.sent)
  {
    assert PointInv(w, c, |w.chains[c].releases| - 1);
    assert Newest(w.chains[c]) !in w.waiters;
  }

  lemma AbortingKeepsSentOnce(waiters: map<Point, Waiter>, sent: seq<Point>, p: Point)
    requires SentOnce(waiters, sent) && p in waiters
    ensures SentOnce(waiters[p := waiters[p].(aborted := true)], sent)
  {
  }

  lemma MakingKeepsSentOnce(w: World, a: Step)
    requires Inv(w) && SentOnce(w.waiters, w.sent) && Enabled(w, a) && MakesSubmit(a)
    ensures SentOnce(Next(w, a).waiters, Next(w, a).sent)
  {
    MakingIsQuiet(w, a);
    if a.SpawnWaiter? {
      SpawningKeepsSentOnce(w, a.c);
    } else if a.AbortOld? {
      AbortingKeepsSentOnce(w.waiters, w.sent, Previous(w.chains[a.c]));
    }
  }

  lemma StepKeepsSentOnce(w: World, a: Step)
    requires Inv(w) && SentOnce(w.waiters, w.sent) && Enabled(w, a)
    ensures SentOnce(Next(w, a).waiters, Next(w, a).sent)
  {
    if MakesSubmit(a) {
      MakingKeepsSentOnce(w, a);
    } else if MovesSubmit(a) {
      MovingIsQuiet(w, a);
    } else if a.WaiterWakes? || a.WaiterGivesUp? {
      FinishingKeepsSentOnce(w.waiters, w.sent, a.p);
    }
  }

  lemma {:induction false} ReachableSentOnce(w: World, steps: seq<Step>)
    requires Reachable(w, steps)
    ensures SentOnce(w.waiters, w.sent)
    decreases |steps|
  {
    if steps != [] {
      var last := |steps| - 1;
      var v :| Reachable(v, steps[..last]) && Enabled(v, steps[last]) && w == Next(v, steps[last]);
      ReachableInv(v, steps[..last]);
      ReachableSentOnce(v, steps[..last]);
      StepKeepsSentOnce(v, steps[last]);
    }
  }

  /** The client is told of a release at most once: exactly once if its waiter finished. */
  lemma NoReleaseIsSentTwice(w: World, steps: seq<Step>)
    requires Reachable(w, steps)
    ensures forall i, j | 0 <= i < j < |w.sent| :: w.sent[i] != w.sent[j]
    ensures forall p :: p in w.sent <==> p in w.waiters && w.waiters[p].finished
  {
    ReachableSentOnce(w, steps);
  }

  // ---------------------------------------------------------------------------------------------
  // No release is sent early
  // ---------------------------------------------------------------------------------------------

  predicate GivesUp(steps: seq<Step>) {
    exists a | a in steps :: a.WaiterGivesUp?
  }

  ghost predicate AllReached(clocks: map<nat, nat>, sent: seq<Point>) {
    forall p | p in sent :: p.buffer in clocks && p.n <= clocks[p.buffer]
  }

  lemma LaterKeepsReached(clocks: map<nat, nat>, later: map<nat, nat>, sent: seq<Point>)
    requires AllReached(clocks, sent) && forall b | b in clocks :: b in later && clocks[b] <= later[b]
    ensures AllReached(later, sent)
  {
  }

  lemma MakingMovesClocksOn(w: World, a: Step)
    requires Enabled(w, a) && MakesSubmit(a)
    ensures forall b | b in w.clocks :: b in Next(w, a).clocks && w.clocks[b] <= Next(w, a).clocks[b]
  {
    if !a.MakeHandler? {
      MakingIsQuiet(w, a);
    }
  }

  lemma OutsideKeepsReached(w: World, a: Step)
    requires w.clocks.Keys == w.counters.Keys && Enabled(w, a) && AllReached(w.clocks, w.sent)
    requires !MakesSubmit(a) && !MovesSubmit(a) && !a.WaiterGivesUp?
    ensures AllReached(Next(w, a).clocks, Next(w, a).sent)
  {
    if !a.WaiterWakes? {
      LaterKeepsReached(w.clocks, Next(w, a).clocks, w.sent);
    }
  }

  lemma StepKeepsReached(w: World, a: Step)
    requires Inv(w) && Enabled(w, a) && !a.WaiterGivesUp? && AllReached(w.clocks, w.sent)
    ensures AllReached(Next(w, a).clocks, Next(w, a).sent)
  {
    if MakesSubmit(a) {
      MakingIsQuiet(w, a);
      MakingMovesClocksOn(w, a);
      LaterKeepsReached(w.clocks, Next(w, a).clocks, w.sent);
    } else if MovesSubmit(a) {
      MovingIsQuiet(w, a);
    } else {
      OutsideKeepsReached(w, a);
    }
  }

  lemma {:induction false} ReachableReached(w: World, steps: seq<Step>)
    requires Reachable(w, steps) && !GivesUp(steps)
    ensures AllReached(w.clocks, w.sent)
    decreases |steps|
  {
    if steps != [] {
      var last := |steps| - 1;
      var v :| Reachable(v, steps[..last]) && Enabled(v, steps[last]) && w == Next(v, steps[last]);
      assert steps[last] in steps;
      assert !GivesUp(steps[..last]);
      ReachableInv(v, steps[..last]);
      ReachableReached(v, steps[..last]);
      StepKeepsReached(v, steps[last]);
    }
  }

  /** While no waiter gave up, the client is told of a release only after the buffer's timeline has
      reached the point. */
  lemma NoReleaseIsSentEarly(w: World, steps: seq<Step>, p: Point)
    requires Reachable(w, steps) && !GivesUp(steps) && p in w.sent
    ensures p.buffer in w.clocks && p.n <= w.clocks[p.buffer]
  {
    ReachableReached(w, steps);
  }

  // ---------------------------------------------------------------------------------------------
  // Only signals move a timeline
  // ---------------------------------------------------------------------------------------------

  /** The acquire point of chain `c` was signalled by its upload. */
  predicate Acquired(chains: map<nat, Chain>, steps: seq<Step>, c: nat, p: Point) {
    AcquireSignalled(c) in steps && c in chains && p == Point(chains[c].buffer, chains[c].acquire)
  }

  /** Who signals a point: the peer that consumed it, a dropped handler, or, for an acquire point, the
      upload. */
  ghost predicate WasSignalled(w: World, steps: seq<Step>, p: Point) {
    PeerSignals(p) in steps || p in w.selfSignals || exists c :: Acquired(w.chains, steps, c, p)
  }

  /** A buffer's clock stands on the latest point signalled to it, or at its start. */
  ghost predicate ClocksFollow(w: World, steps: seq<Step>) {
    && (forall b | b in w.clocks :: w.clocks[b] == 0 || WasSignalled(w, steps, Point(b, w.clocks[b])))
    && (forall p | WasSignalled(w, steps, p) :: p.buffer in w.clocks && p.n <= w.clocks[p.buffer])
  }

  ghost predicate AcquiresExist(chains: map<nat, Chain>, steps: seq<Step>) {
    forall c | AcquireSignalled(c) in steps :: c in chains
  }

  /** A chain keeps its buffer and its acquire point. */
  ghost predicate AcquiresKept(before: map<nat, Chain>, now: map<nat, Chain>) {
    forall c | c in before ::
      c in now && now[c].buffer == before[c].buffer && now[c].acquire == before[c].acquire
  }

  lemma OneChainKeeps(before: map<nat, Chain>, now: map<nat, Chain>, c: nat)
    requires c in now && now == before[c := now[c]]
    requires c in before ==> now[c].buffer == before[c].buffer && now[c].acquire == before[c].acquire
    ensures AcquiresKept(before, now)
  {
  }

  lemma MakingKeepsAcquires(w: World, a: Step)
    requires Enabled(w, a) && MakesSubmit(a)
    ensures AcquiresKept(w.chains, Next(w, a).chains)
  {
    match a
    case BeginUpdate(c, b) => OneChainKeeps(w.chains, Begun(w, c, b).chains, c);
    case IssueRelease(c) => OneChainKeeps(w.chains, Issued(w, c, NeedsWaiter).chains, c);
    case IssueReapply(c) => OneChainKeeps(w.chains, Issued(w, c, NeedsAbort).chains, c);
    case AbortOld(c) => OneChainKeeps(w.chains, OldAborted(w, c).chains, c);
    case SpawnWaiter(c) => OneChainKeeps(w.chains, WaiterSpawned(w, c).chains, c);
    case MakeHandler(c, ok) => OneChainKeeps(w.chains, HandlerMade(w, c, ok).chains, c);
    case DropOld(c) => OneChainKeeps(w.chains, Next(w, a).chains, c);
  }

  /** Chains that only change their places. */
  ghost predicate PointsKept(before: map<nat, Chain>, now: map<nat, Chain>) {
    && now.Keys == before.Keys
    && AcquiresKept(before, now)
    && forall c | c in before :: now[c].releases == before[c].releases
  }

  lemma StoringKeepsPoints(w: World, c: nat, slot: Place, evicted: Option<nat>)
    requires c in w.chains && (evicted.Some? ==> evicted.value in w.chains)
    ensures PointsKept(w.chains, Stored(w, c, slot, evicted).chains)
  {
  }

  lemma MovingKeepsPoints(w: World, a: Step)
    requires Enabled(w, a) && MovesSubmit(a)
    ensures PointsKept(w.chains, Next(w, a).chains)
  {
    match a
    case StoreCurrent(c, s, evicted) => StoringKeepsPoints(w, c, InCurrent(s), evicted);
    case StoreBuffered(c, s, evicted) => StoringKeepsPoints(w, c, InBuffered(s), evicted);
    case Publish(c, accepted) => assert SentToPeer(w, c, accepted).chains == Moved(w, c, Published).chains;
    case _ =>
  }

  /** A step that is no signal adds none. */
  lemma SignalsKept(w: World, v: World, steps: seq<Step>, a: Step, p: Point)
    requires AcquiresExist(w.chains, steps) && AcquiresKept(w.chains, v.chains) && v.selfSignals == w.selfSignals
    requires !a.AcquireSignalled? && !a.PeerSignals?
    ensures WasSignalled(v, steps + [a], p) <==> WasSignalled(w, steps, p)
    ensures AcquiresExist(v.chains, steps + [a])
  {
    assert forall b :: b in steps + [a] <==> b in steps || b == a;
    forall c ensures Acquired(v.chains, steps + [a], c, p) <==> Acquired(w.chains, steps, c, p) {
    }
  }

  lemma QuietFollows(w: World, v: World, steps: seq<Step>, a: Step)
    requires ClocksFollow(w, steps) && AcquiresExist(w.chains, steps) && AcquiresKept(w.chains, v.chains)
    requires v.selfSignals == w.selfSignals && !a.AcquireSignalled? && !a.PeerSignals?
    requires v.clocks == w.clocks || exists b: nat :: b !in w.clocks && v.clocks == w.clocks[b := 0]
    ensures ClocksFollow(v, steps + [a]) && AcquiresExist(v.chains, steps + [a])
  {
    SignalsKept(w, v, steps, a, Point(0, 0));
    forall p ensures WasSignalled(v, steps + [a], p) <==> WasSignalled(w, steps, p) {
      SignalsKept(w, v, steps, a, p);
    }
  }

  /** A signal of `p` moves the clock of its buffer there, unless it is further already. */
  lemma SignalFollows(w: World, v: World, steps: seq<Step>, more: seq<Step>, p: Point)
    requires ClocksFollow(w, steps) && p.buffer in w.clocks && v.clocks == Signalled(w, p).clocks
    requires forall q :: WasSignalled(v, more, q) <==> WasSignalled(w, steps, q) || q == p
    ensures ClocksFollow(v, more)
  {
    assert WasSignalled(v, more, p);
    forall b | b in v.clocks ensures v.clocks[b] == 0 || WasSignalled(v, more, Point(b, v.clocks[b])) {
      assert v.clocks[b] == w.clocks[b] || Point(b, v.clocks[b]) == p;
    }
  }

  lemma SelfSignalFollows(w: World, v: World, steps: seq<Step>, a: Step, p: Point)
    requires ClocksFollow(w, steps) && AcquiresExist(w.chains, steps) && AcquiresKept(w.chains, v.chains)
    requires !a.AcquireSignalled? && !a.PeerSignals?
    requires p.buffer in w.clocks && v.clocks == Signalled(w, p).clocks && v.selfSignals == w.selfSignals + multiset{p}
    ensures ClocksFollow(v, steps + [a]) && AcquiresExist(v.chains, steps + [a])
  {
    var u := v.(selfSignals := w.selfSignals);
    SignalsKept(w, u, steps, a, p);
    forall q ensures WasSignalled(v, steps + [a], q) <==> WasSignalled(w, steps, q) || q == p {
      SignalsKept(w, u, steps, a, q);
    }
    SignalFollows(w, v, steps, steps + [a], p);
  }

  lemma PeerSignalFollows(w: World, steps: seq<Step>, p: Point)
    requires ClocksFollow(w, steps) && AcquiresExist(w.chains, steps) && p.buffer in w.clocks
    ensures ClocksFollow(Signalled(w, p), steps + [PeerSignals(p)])
    ensures AcquiresExist(Signalled(w, p).chains, steps + [PeerSignals(p)])
  {
    var v, more := Signalled(w, p), steps + [PeerSignals(p)];
    assert forall b :: b in more <==> b in steps || b == PeerSignals(p);
    forall q ensures WasSignalled(v, more, q) <==> WasSignalled(w, steps, q) || q == p {
      assert forall c :: Acquired(v.chains, more, c, q) <==> Acquired(w.chains, steps, c, q);
    }
    SignalFollows(w, v, steps, more, p);
  }

  lemma AcquireSignalFollows(w: World, steps: seq<Step>, c: nat)
    requires ClocksFollow(w, steps) && AcquiresExist(w.chains, steps) && c in w.chains && w.chains[c].buffer in w.clocks
    ensures var v := Signalled(w, Point(w.chains[c].buffer, w.chains[c].acquire));
            ClocksFollow(v, steps + [AcquireSignalled(c)]) && AcquiresExist(v.chains, steps + [AcquireSignalled(c)])
  {
    var p, more := Point(w.chains[c].buffer, w.chains[c].acquire), steps + [AcquireSignalled(c)];
    var v := Signalled(w, p);
    assert forall b :: b in more <==> b in steps || b == AcquireSignalled(c);
    forall q ensures WasSignalled(v, more, q) <==> WasSignalled(w, steps, q) || q == p {
      assert forall d :: Acquired(v.chains, more, d, q) <==> Acquired(w.chains, steps, d, q) || (d == c && q == p);
      assert Acquired(v.chains, more, c, p);
    }
    SignalFollows(w, v, steps, more, p);
  }

  lemma FailingHandlerSignals(w: World, c: nat)
    requires Enabled(w, MakeHandler(c, false))
    ensures var v, p := HandlerMade(w, c, false), Newest(w.chains[c]);
            v.clocks == Signalled(w, p).clocks && v.selfSignals == w.selfSignals + multiset{p}
  {
  }

  lemma MakingFollows(w: World, steps: seq<Step>, a: Step)
    requires Inv(w) && ClocksFollow(w, steps) && AcquiresExist(w.chains, steps) && Enabled(w, a) && MakesSubmit(a)
    ensures ClocksFollow(Next(w, a), steps + [a]) && AcquiresExist(Next(w, a).chains, steps + [a])
  {
    MakingKeepsAcquires(w, a);
    if a.MakeHandler? && !a.ok {
      FailingHandlerSignals(w, a.c);
      SelfSignalFollows(w, HandlerMade(w, a.c, false), steps, a, Newest(w.chains[a.c]));
    } else {
      MakingIsQuiet(w, a);
      QuietFollows(w, Next(w, a), steps, a);
    }
  }

  lemma HandlerGoneFollows(w: World, steps: seq<Step>, p: Point)
    requires ClocksFollow(w, steps) && AcquiresExist(w.chains, steps) && p in w.handlers && p.buffer in w.clocks
    ensures var v, more := HandlerGone(w, p), steps + [HandlerDropped(p)];
            ClocksFollow(v, more) && AcquiresExist(v.chains, more)
  {
    if w.handlers[p].consumed {
      QuietFollows(w, HandlerGone(w, p), steps, HandlerDropped(p));
    } else {
      SelfSignalFollows(w, HandlerGone(w, p), steps, HandlerDropped(p), p);
    }
  }

  lemma OutsideFollows(w: World, steps: seq<Step>, a: Step)
    requires Inv(w) && ClocksFollow(w, steps) && AcquiresExist(w.chains, steps) && Enabled(w, a)
    requires !MakesSubmit(a) && !MovesSubmit(a)
    ensures ClocksFollow(Next(w, a), steps + [a]) && AcquiresExist(Next(w, a).chains, steps + [a])
  {
    match a
    case NewBuffer(b) => QuietFollows(w, Next(w, a), steps, a);
    case Consume(p) => QuietFollows(w, TakenOver(w, p), steps, a);
    case PeerDrops(p) => QuietFollows(w, LetGo(w, p), steps, a);
    case PeerSignals(p) => PeerSignalFollows(w, steps, p);
    case HandlerDropped(p) => HandlerGoneFollows(w, steps, p);
    case AcquireSignalled(c) => AcquireSignalFollows(w, steps, c);
    case WaiterWakes(p) => QuietFollows(w, Released(w, p), steps, a);
    case WaiterGivesUp(p) => QuietFollows(w, Released(w, p), steps, a);
  }

  lemma StepFollows(w: World, steps: seq<Step>, a: Step, v: World, more: seq<Step>)
    requires Reachable(w, steps) && ClocksFollow(w, steps) && AcquiresExist(w.chains, steps) && Enabled(w, a)
    requires v == Next(w, a) && more == steps + [a]
    ensures ClocksFollow(v, more) && AcquiresExist(v.chains, more)
  {
    ReachableInv(w, steps);
    if MakesSubmit(a) {
      MakingFollows(w, steps, a);
    } else if MovesSubmit(a) {
      MovingIsQuiet(w, a);
      MovingKeepsPoints(w, a);
      QuietFollows(w, v, steps, a);
    } else {
      OutsideFollows(w, steps, a);
    }
  }

  lemma StartFollows()
    ensures ClocksFollow(START, []) && AcquiresExist(START.chains, [])
  {
  }

  lemma {:induction false} ReachableFollows(w: World, steps: seq<Step>)
    requires Reachable(w, steps)
    ensures ClocksFollow(w, steps) && AcquiresExist(w.chains, steps)
    decreases |steps|
  {
    if steps == [] {
      StartFollows();
    } else {
      var last := |steps| - 1;
      var v :| Reachable(v, steps[..last]) && Enabled(v, steps[last]) && w == Next(v, steps[last]);
      ReachableFollows(v, steps[..last]);
      assert steps[..last] + [steps[last]] == steps;
      StepFollows(v, steps[..last], steps[last], w, steps);
    }
  }

  /** In every run the timeline of a buffer stands exactly on the latest point somebody signalled:
      nothing else moves it. */
  lemma ClocksAreSignals(w: World, steps: seq<Step>)
    requires Reachable(w, steps)
    ensures forall b | b in w.clocks :: w.clocks[b] == 0 || WasSignalled(w, steps, Point(b, w.clocks[b]))
    ensures forall p | WasSignalled(w, steps, p) :: p.buffer in w.clocks && p.n <= w.clocks[p.buffer]
  {
    ReachableFollows(w, steps);
  }

  // ---------------------------------------------------------------------------------------------
  // No release is signalled behind the peer's back
  // ---------------------------------------------------------------------------------------------

  /** The release points chain `c` has taken. */
  function PointsIssued(steps: seq<Step>, c: nat): nat {
    if steps == [] then 0
    else
      var a := steps[|steps| - 1];
      PointsIssued(steps[..|steps| - 1], c) + if a == IssueRelease(c) || a == IssueReapply(c) then 1 else 0
  }

  /** The peer was given the handler of the `i`th release point of chain `c`, which is `p`, and has not
      let go of it since. */
  predicate PeerHolds(steps: seq<Step>, c: nat, i: nat, p: Point) {
    if steps == [] then false
    else
      var before, a := steps[..|steps| - 1], steps[|steps| - 1];
      if a == Publish(c, true) && PointsIssued(before, c) == i + 1 then true
      else a != PeerDrops(p) && PeerHolds(before, c, i, p)
  }

  lemma {:induction false} NothingHeldBeforeIssue(steps: seq<Step>, c: nat, i: nat, p: Point)
    requires PointsIssued(steps, c) <= i
    ensures !PeerHolds(steps, c, i, p)
    decreases |steps|
  {
    if steps != [] {
      NothingHeldBeforeIssue(steps[..|steps| - 1], c, i, p);
    }
  }

  predicate HasPeer(handlers: map<Point, Handler>, p: Point) {
    p in handlers && handlers[p].peerRef
  }

  ghost predicate IssuesCounted(chains: map<nat, Chain>, steps: seq<Step>) {
    forall c :: PointsIssued(steps, c) == if c in chains then |chains[c].releases| else 0
  }

  ghost predicate PeersFollow(w: World, steps: seq<Step>) {
    forall c, i {:trigger PointOf(w, c, i)} | c in w.chains && 0 <= i < |w.chains[c].releases| ::
      HasPeer(w.handlers, PointOf(w, c, i)) <==> PeerHolds(steps, c, i, PointOf(w, c, i))
  }

  /** How many release points the chains have changes only where one is issued. */
  lemma OneChainCounts(before: map<nat, Chain>, now: map<nat, Chain>, steps: seq<Step>, a: Step, c: nat)
    requires IssuesCounted(before, steps) && MakesSubmit(a) && c == a.c && c in now && now == before[c := now[c]]
    requires |now[c].releases| == (if c in before then |before[c].releases| else 0)
                                  + if a.IssueRelease? || a.IssueReapply? then 1 else 0
    ensures IssuesCounted(now, steps + [a])
  {
    assert (steps + [a])[..|steps|] == steps;
  }

  lemma MakingCounts(w: World, steps: seq<Step>, a: Step)
    requires IssuesCounted(w.chains, steps) && Enabled(w, a) && MakesSubmit(a)
    ensures IssuesCounted(Next(w, a).chains, steps + [a])
  {
    match a
    case BeginUpdate(c, b) => OneChainCounts(w.chains, Begun(w, c, b).chains, steps, a, c);
    case IssueRelease(c) => OneChainCounts(w.chains, Issued(w, c, NeedsWaiter).chains, steps, a, c);
    case IssueReapply(c) => OneChainCounts(w.chains, Issued(w, c, NeedsAbort).chains, steps, a, c);
    case AbortOld(c) => OneChainCounts(w.chains, OldAborted(w, c).chains, steps, a, c);
    case SpawnWaiter(c) => OneChainCounts(w.chains, WaiterSpawned(w, c).chains, steps, a, c);
    case MakeHandler(c, ok) => OneChainCounts(w.chains, HandlerMade(w, c, ok).chains, steps, a, c);
    case DropOld(c) => OneChainCounts(w.chains, Next(w, a).chains, steps, a, c);
  }

  lemma KeepingCounts(before: map<nat, Chain>, now: map<nat, Chain>, steps: seq<Step>, a: Step)
    requires IssuesCounted(before, steps) && PointsKept(before, now) && !a.IssueRelease? && !a.IssueReapply?
    ensures IssuesCounted(now, steps + [a])
  {
    assert (steps + [a])[..|steps|] == steps;
  }

  /** A step that is about neither the `i`th point of chain `c` nor its peer. */
  lemma HolderKept(w: World, v: World, steps: seq<Step>, a: Step, c: nat, i: nat, p: Point)
    requires HasPeer(w.handlers, p) <==> PeerHolds(steps, c, i, p)
    requires HasPeer(v.handlers, p) <==> HasPeer(w.handlers, p)
    requires a == Publish(c, true) ==> PointsIssued(steps, c) != i + 1
    requires a != PeerDrops(p)
    ensures HasPeer(v.handlers, p) <==> PeerHolds(steps + [a], c, i, p)
  {
    assert (steps + [a])[..|steps|] == steps;
  }

  /** The point that is issued has no handler, and nobody was given one for it. */
  lemma IssuedHasNoPeer(w: World, steps: seq<Step>, a: Step, c: nat, place: Place)
    requires Inv(w) && Issues(w, c, place) && IssuesCounted(w.chains, steps) && !a.Publish?
    ensures var i, p := |w.chains[c].releases|, Point(w.chains[c].buffer, w.counters[w.chains[c].buffer]);
            !HasPeer(w.handlers, p) && !PeerHolds(steps + [a], c, i, p)
  {
    var i, p := |w.chains[c].releases|, Point(w.chains[c].buffer, w.counters[w.chains[c].buffer]);
    assert p !in w.owner;
    assert (steps + [a])[..|steps|] == steps;
    NothingHeldBeforeIssue(steps, c, i, p);
  }

  lemma IssueKeepsPeers(w: World, steps: seq<Step>, a: Step, c: nat, place: Place)
    requires Inv(w) && Issues(w, c, place) && IssuesCounted(w.chains, steps) && PeersFollow(w, steps)
    requires a == IssueRelease(c) || a == IssueReapply(c)
    ensures PeersFollow(Issued(w, c, place), steps + [a])
  {
    var v := Issued(w, c, place);
    forall d, i | d in v.chains && 0 <= i < |v.chains[d].releases|
      ensures HasPeer(v.handlers, PointOf(v, d, i)) <==> PeerHolds(steps + [a], d, i, PointOf(v, d, i))
    {
      if d == c && i == |w.chains[c].releases| {
        IssuedHasNoPeer(w, steps, a, c, place);
      } else {
        HolderKept(w, v, steps, a, d, i, PointOf(w, d, i));
      }
    }
  }

  /** A step that neither issues nor publishes a point, and after which the same peers hold on, apart
      from the one that lets go. */
  lemma OthersKeepPeers(w: World, v: World, steps: seq<Step>, a: Step)
    requires PeersFollow(w, steps) && !a.Publish?
    requires forall c | c in v.chains && v.chains[c].releases != [] ::
               c in w.chains && v.chains[c].buffer == w.chains[c].buffer && v.chains[c].releases == w.chains[c].releases
    requires forall p :: HasPeer(v.handlers, p) <==> HasPeer(w.handlers, p) && a != PeerDrops(p)
    ensures PeersFollow(v, steps + [a])
  {
    assert (steps + [a])[..|steps|] == steps;
    forall c, i | c in v.chains && 0 <= i < |v.chains[c].releases|
      ensures HasPeer(v.handlers, PointOf(v, c, i)) <==> PeerHolds(steps + [a], c, i, PointOf(v, c, i))
    {
      assert PointOf(v, c, i) == PointOf(w, c, i);
    }
  }

  lemma PublishedHolder(w: World, steps: seq<Step>, c: nat, accepted: bool)
    requires IssuesCounted(w.chains, steps) && PeersFollow(w, steps) && Enabled(w, Publish(c, accepted))
    ensures var i, p := |w.chains[c].releases| - 1, Newest(w.chains[c]);
            HasPeer(SentToPeer(w, c, accepted).handlers, p) <==> PeerHolds(steps + [Publish(c, accepted)], c, i, p)
  {
    assert (steps + [Publish(c, accepted)])[..|steps|] == steps;
    assert PointOf(w, c, |w.chains[c].releases| - 1) == Newest(w.chains[c]);
  }

  lemma HolderAfterPublish(w: World, steps: seq<Step>, c: nat, accepted: bool, d: nat, i: nat)
    requires Inv(w) && IssuesCounted(w.chains, steps) && PeersFollow(w, steps) && Enabled(w, Publish(c, accepted))
    requires d in w.chains && i < |w.chains[d].releases|
    ensures var p := PointOf(w, d, i);
            HasPeer(SentToPeer(w, c, accepted).handlers, p) <==> PeerHolds(steps + [Publish(c, accepted)], d, i, p)
  {
    var at := |w.chains[c].releases| - 1;
    if PointOf(w, d, i) == PointOf(w, c, at) {
      PointsAreDistinct(w, d, i, c, at);
      PublishedHolder(w, steps, c, accepted);
    } else {
      HolderKept(w, SentToPeer(w, c, accepted), steps, Publish(c, accepted), d, i, PointOf(w, d, i));
    }
  }

  /** Publishing gives the peer the newest point's handler, or, if refused, changes nothing. */
  lemma PublishKeepsPeers(w: World, steps: seq<Step>, c: nat, accepted: bool)
    requires Inv(w) && IssuesCounted(w.chains, steps) && PeersFollow(w, steps) && Enabled(w, Publish(c, accepted))
    ensures PeersFollow(SentToPeer(w, c, accepted), steps + [Publish(c, accepted)])
  {
    var v, a := SentToPeer(w, c, accepted), Publish(c, accepted);
    forall d, i | d in v.chains && 0 <= i < |v.chains[d].releases|
      ensures HasPeer(v.handlers, PointOf(v, d, i)) <==> PeerHolds(steps + [a], d, i, PointOf(v, d, i))
    {
      assert PointOf(v, d, i) == PointOf(w, d, i);
      HolderAfterPublish(w, steps, c, accepted, d, i);
    }
  }

  lemma BeginKeepsPeers(w: World, steps: seq<Step>, c: nat, b: nat)
    requires PeersFollow(w, steps) && Enabled(w, BeginUpdate(c, b))
    ensures PeersFollow(Begun(w, c, b), steps + [BeginUpdate(c, b)])
  {
    OthersKeepPeers(w, Begun(w, c, b), steps, BeginUpdate(c, b));
  }

  lemma AbortKeepsPeers(w: World, steps: seq<Step>, c: nat)
    requires PeersFollow(w, steps) && Enabled(w, AbortOld(c))
    ensures PeersFollow(OldAborted(w, c), steps + [AbortOld(c)])
  {
    OthersKeepPeers(w, OldAborted(w, c), steps, AbortOld(c));
  }

  lemma SpawnKeepsPeers(w: World, steps: seq<Step>, c: nat)
    requires PeersFollow(w, steps) && Enabled(w, SpawnWaiter(c))
    ensures PeersFollow(WaiterSpawned(w, c), steps + [SpawnWaiter(c)])
  {
    OthersKeepPeers(w, WaiterSpawned(w, c), steps, SpawnWaiter(c));
  }

  lemma HandlerKeepsPeers(w: World, steps: seq<Step>, c: nat, ok: bool)
    requires Inv(w) && PeersFollow(w, steps) && Enabled(w, MakeHandler(c, ok))
    ensures PeersFollow(HandlerMade(w, c, ok), steps + [MakeHandler(c, ok)])
  {
    assert PointInv(w, c, |w.chains[c].releases| - 1);
    OthersKeepPeers(w, HandlerMade(w, c, ok), steps, MakeHandler(c, ok));
  }

  lemma DropKeepsPeers(w: World, steps: seq<Step>, a: Step, c: nat, place: Place, p: Point)
    requires PeersFollow(w, steps) && c in w.chains && p in w.handlers && !a.Publish? && !a.PeerDrops?
    ensures PeersFollow(LocalDropped(w, c, place, p), steps + [a])
  {
    OthersKeepPeers(w, LocalDropped(w, c, place, p), steps, a);
  }

  lemma MakingKeepsPeers(w: World, steps: seq<Step>, a: Step)
    requires Inv(w) && IssuesCounted(w.chains, steps) && PeersFollow(w, steps) && Enabled(w, a) && MakesSubmit(a)
    ensures PeersFollow(Next(w, a), steps + [a])
  {
    match a
    case BeginUpdate(c, b) => BeginKeepsPeers(w, steps, c, b);
    case IssueRelease(c) => IssueKeepsPeers(w, steps, a, c, NeedsWaiter);
    case IssueReapply(c) => IssueKeepsPeers(w, steps, a, c, NeedsAbort);
    case AbortOld(c) => AbortKeepsPeers(w, steps, c);
    case SpawnWaiter(c) => SpawnKeepsPeers(w, steps, c);
    case MakeHandler(c, ok) => HandlerKeepsPeers(w, steps, c, ok);
    case DropOld(c) =>
      DropKeepsPeers(w, steps, a, c, if w.chains[c].place.kept then InHand else Gone, Previous(w.chains[c]));
  }

  lemma MovingKeepsPeers(w: World, steps: seq<Step>, a: Step)
    requires Inv(w) && IssuesCounted(w.chains, steps) && PeersFollow(w, steps) && Enabled(w, a) && MovesSubmit(a)
    ensures PeersFollow(Next(w, a), steps + [a])
  {
    if a.Publish? {
      PublishKeepsPeers(w, steps, a.c, a.accepted);
    } else if a.DropSubmit? {
      DropKeepsPeers(w, steps, a, a.c, Gone, Newest(w.chains[a.c]));
    } else {
      MovingKeepsPoints(w, a);
      OthersKeepPeers(w, Next(w, a), steps, a);
    }
  }

  lemma OutsideKeepsPeers(w: World, steps: seq<Step>, a: Step)
    requires PeersFollow(w, steps) && Enabled(w, a) && !MakesSubmit(a) && !MovesSubmit(a)
    ensures PeersFollow(Next(w, a), steps + [a])
  {
    OthersKeepPeers(w, Next(w, a), steps, a);
  }

  lemma StepCounts(w: World, steps: seq<Step>, a: Step, v: World, more: seq<Step>)
    requires IssuesCounted(w.chains, steps) && Enabled(w, a) && v == Next(w, a) && more == steps + [a]
    ensures IssuesCounted(v.chains, more)
  {
    if MakesSubmit(a) {
      MakingCounts(w, steps, a);
    } else if MovesSubmit(a) {
      MovingKeepsPoints(w, a);
      KeepingCounts(w.chains, v.chains, steps, a);
    } else {
      KeepingCounts(w.chains, v.chains, steps, a);
    }
  }

  lemma {:induction false} ReachableCounts(w: World, steps: seq<Step>)
    requires Reachable(w, steps)
    ensures IssuesCounted(w.chains, steps)
    decreases |steps|
  {
    if steps != [] {
      var last := |steps| - 1;
      var v :| Reachable(v, steps[..last]) && Enabled(v, steps[last]) && w == Next(v, steps[last]);
      ReachableCounts(v, steps[..last]);
      assert steps[..last] + [steps[last]] == steps;
      StepCounts(v, steps[..last], steps[last], w, steps);
    }
  }

  lemma StepKeepsPeers(w: World, steps: seq<Step>, a: Step, v: World, more: seq<Step>)
    requires Reachable(w, steps) && PeersFollow(w, steps) && Enabled(w, a) && v == Next(w, a) && more == steps + [a]
    ensures PeersFollow(v, more)
  {
    ReachableInv(w, steps);
    ReachableCounts(w, steps);
    if MakesSubmit(a) {
      MakingKeepsPeers(w, steps, a);
    } else if MovesSubmit(a) {
      MovingKeepsPeers(w, steps, a);
    } else {
      OutsideKeepsPeers(w, steps, a);
    }
  }

  lemma {:induction false} ReachablePeers(w: World, steps: seq<Step>)
    requires Reachable(w, steps)
    ensures PeersFollow(w, steps)
    decreases |steps|
  {
    if steps == [] {
      assert w.chains == map[];
    } else {
      var last := |steps| - 1;
      var v :| Reachable(v, steps[..last]) && Enabled(v, steps[last]) && w == Next(v, steps[last]);
      ReachablePeers(v, steps[..last]);
      assert steps[..last] + [steps[last]] == steps;
      StepKeepsPeers(v, steps[..last], steps[last], w, steps);
    }
  }

  /** While the peer holds a release point it was given, the point's handler lives, so that nothing but
      the peer itself signals the point. */
  lemma PeersKeepTheirPoints(w: World, steps: seq<Step>, c: nat, i: nat)
    requires Reachable(w, steps) && c in w.chains && i < |w.chains[c].releases|
    requires PeerHolds(steps, c, i, PointOf(w, c, i))
    ensures PointOf(w, c, i) in w.handlers && PointOf(w, c, i) !in w.selfSignals
  {
    ReachableInv(w, steps);
    ReachablePeers(w, steps);
    assert PointInv(w, c, i);
  }
}
