/** The calls behind a buffer submission, one at a time: `SignalOnDrop`, `Buffer::update` and
    `BufferSubmit::reapply`. `BufferRelease` interleaves their atomic steps. */
module BufferCalls {
  import opened Wrappers
  import opened BufferRelease

  /** The later of two points. */
  function Later(m: nat, n: nat): nat {
    if n > m then n else m
  }

  /** A timeline only moves forward; `signals` records every signal sent to it. */
  class Timeline {
    var value: nat
    var signals: seq<nat>

    constructor ()
      ensures value == 0 && signals == []
    {
      value, signals := 0, [];
    }

    method Signal(n: nat)
      modifies this
      ensures value == Later(old(value), n) && signals == old(signals) + [n]
    {
      if n > value {
        value := n;
      }
      signals := signals + [n];
    }
  }

  class SignalOnDrop {
    const timeline: Timeline
    const point: nat
    var consumed: bool

    constructor (timeline: Timeline, point: nat)
      ensures this.timeline == timeline && this.point == point && !consumed
    {
      this.timeline, this.point, consumed := timeline, point, false;
    }

    method Consume() returns (p: nat)
      modifies this
      ensures consumed && p == point
    {
      consumed := true;
      p := point;
    }

    /** Runs when the last reference goes: the point is signalled here unless the peer took it over. */
    method Drop()
      modifies timeline
      ensures timeline.signals == old(timeline.signals) + if consumed then [] else [point]
      ensures timeline.value == if consumed then old(timeline.value) else Later(old(timeline.value), point)
    {
      if !consumed {
        timeline.Signal(point);
      }
    }
  }

  datatype Submit = Submit(acquire: nat, release: SignalOnDrop)

  class Buffer {
    const timeline: Timeline
    var next: nat
    var waiters: map<nat, bool>  // the points a release task waits on; true once it was aborted

    constructor (timeline: Timeline)
      ensures this.timeline == timeline && next == 0 && waiters == map[]
    {
      this.timeline, next, waiters := timeline, 0, map[];
    }

    /** `fetch_add` on a 64-bit counter: it wraps. */
    method NewTimelinePoint() returns (n: nat)
      modifies this
      ensures n == old(next) && next == (old(next) + 1) % LIMIT && waiters == old(waiters)
    {
      n := next;
      next := (next + 1) % LIMIT;
    }

    /** `serviceCreated` says whether the handler's service could be created. If not, the handler drops
        at once and signals the point, and the waiter spawned before still releases the buffer. If so,
        the timeline stays where it is: the release point is reached only when somebody signals it. */
    method Update(serviceCreated: bool) returns (submit: Option<Submit>)
      modifies this, timeline
      ensures next == ((old(next) + 1) % LIMIT + 1) % LIMIT
      ensures var release := (old(next) + 1) % LIMIT;
              && waiters == old(waiters)[release := false]
              && (serviceCreated <==> submit.Some?)
              && (serviceCreated ==>
                    && submit.value.acquire == old(next)
                    && fresh(submit.value.release) && submit.value.release.timeline == timeline
                    && submit.value.release.point == release && !submit.value.release.consumed
                    && timeline.signals == old(timeline.signals) && timeline.value == old(timeline.value))
              && (!serviceCreated ==>
                    && timeline.signals == old(timeline.signals) + [release]
                    && timeline.value == Later(old(timeline.value), release))
    {
      var acquire := NewTimelinePoint();
      var release := NewTimelinePoint();
      waiters := waiters[release := false];
      var handler := new SignalOnDrop(timeline, release);
      if !serviceCreated {
        handler.Drop();
        return None;
      }
      submit := Some(Submit(acquire, handler));
    }

    /** Replaces the release of a submit of this buffer. `lastRef` says whether the peer has let go of
        the old handler, which then drops together with the submit. */
    method Reapply(submit: Submit, serviceCreated: bool, lastRef: bool) returns (again: Option<Submit>)
      requires submit.release.timeline == timeline
      modifies this, timeline
      ensures next == (old(next) + 1) % LIMIT
      ensures waiters == old(waiters)[submit.release.point := true][old(next) := false]
      ensures serviceCreated <==> again.Some?
      ensures serviceCreated ==>
                && again.value.acquire == submit.acquire
                && fresh(again.value.release) && again.value.release.timeline == timeline
                && again.value.release.point == old(next) && !again.value.release.consumed
      ensures timeline.signals == old(timeline.signals)
                + (if serviceCreated then [] else [old(next)])
                + (if lastRef && !submit.release.consumed then [submit.release.point] else [])
      ensures var reached := if serviceCreated then old(timeline.value) else Later(old(timeline.value), old(next));
              timeline.value
              == if lastRef && !submit.release.consumed then Later(reached, submit.release.point) else reached
    {
      var newRelease := NewTimelinePoint();
      waiters := waiters[submit.release.point := true];
      waiters := waiters[newRelease := false];
      var handler := new SignalOnDrop(timeline, newRelease);
      if serviceCreated {
        again := Some(Submit(submit.acquire, handler));
      } else {
        handler.Drop();
        again := None;
      }
      if lastRef {
        submit.release.Drop();
      }
    }
  }

  // ---------------------------------------------------------------------------------------------
  // The counter
  // ---------------------------------------------------------------------------------------------

  /** The counter after `n` calls of `NewTimelinePoint`, which is the point the next call hands out. */
  function Counter(n: nat): nat {
    if n == 0 then 0 else (Counter(n - 1) + 1) % LIMIT
  }

  lemma {:induction false} CounterIsModular(n: nat)
    ensures Counter(n) == n % LIMIT
  {
    if n > 0 {
      CounterIsModular(n - 1);
    }
  }

  /** All points handed out are distinct exactly while at most 2^64 were. */
  lemma PointsAreDistinctIff(n: nat)
    ensures (forall i, j | 0 <= i < j < n :: Counter(i) != Counter(j)) <==> n <= LIMIT
  {
    forall i | 0 <= i <= n ensures Counter(i) == i % LIMIT {
      CounterIsModular(i);
    }
    if n > LIMIT {
      assert Counter(0) == Counter(LIMIT);
    }
  }

  // ---------------------------------------------------------------------------------------------
  // Uninterrupted calls in the interleaved model
  // ---------------------------------------------------------------------------------------------

  function PointsTaken(w: World, c: nat, b: nat): World
    requires b in w.counters
  {
    var n := w.counters[b];
    w.(counters := w.counters[b := n + 2],
       owner := w.owner[Point(b, n) := c][Point(b, n + 1) := c],
       chains := w.chains[c := Chain(b, n, [n + 1], NeedsWaiter)])
  }

  lemma TakePoints(w: World, c: nat, b: nat)
    requires c !in w.chains && b in w.counters && b in w.clocks && w.counters[b] + 1 < LIMIT
    ensures var w1 := Begun(w, c, b); Enabled(w1, IssueRelease(c)) && Issued(w1, c, NeedsWaiter) == PointsTaken(w, c, b)
  {
    var w1 := Begun(w, c, b);
    var w2 := Issued(w1, c, NeedsWaiter);
    var n := w.counters[b];
    assert w1.chains[c] == Chain(b, n, [], NeedsRelease);
    assert w2.chains[c] == Chain(b, n, [n + 1], NeedsWaiter);
    assert w2.chains == PointsTaken(w, c, b).chains;
    assert w2.counters == PointsTaken(w, c, b).counters;
  }

  function Finished(w: World, c: nat, ok: bool): World
    requires c in w.chains && |w.chains[c].releases| == 1 && w.chains[c].buffer in w.clocks
  {
    var p := Newest(w.chains[c]);
    var v := w.(chains := w.chains[c := w.chains[c].(place := if ok then InHand else Gone)],
                waiters := w.waiters[p := Waiter(false, false)]);
    if ok then v.(handlers := w.handlers[p := Handler(true, false, false)])
    else Signalled(v, p).(selfSignals := w.selfSignals + multiset{p})
  }

  lemma SpawnAndMake(w: World, c: nat, ok: bool)
    requires AtPlace(w, c, NeedsWaiter) && |w.chains[c].releases| == 1 && w.chains[c].buffer in w.clocks
    ensures var w1 := WaiterSpawned(w, c);
            Enabled(w1, MakeHandler(c, ok)) && HandlerMade(w1, c, ok) == Finished(w, c, ok)
  {
    assert HandlerMade(WaiterSpawned(w, c), c, ok).chains == Finished(w, c, ok).chains;
  }

  lemma SpawnAndMakeRun(w: World, c: nat, ok: bool)
    requires AtPlace(w, c, NeedsWaiter) && |w.chains[c].releases| == 1 && w.chains[c].buffer in w.clocks
    ensures RunsTo(w, [SpawnWaiter(c), MakeHandler(c, ok)], Finished(w, c, ok))
  {
    SpawnAndMake(w, c, ok);
    var last := [MakeHandler(c, ok)];
    assert last[1..] == [];
    assert RunsTo(WaiterSpawned(w, c), last, Finished(w, c, ok));
    RunsToCons(w, SpawnWaiter(c), last, Finished(w, c, ok));
  }

  /** An `update` that nothing interrupts is these four steps, with the effect of `Buffer.Update`. */
  lemma UninterruptedUpdate(w: World, c: nat, b: nat, ok: bool)
    requires c !in w.chains && b in w.counters && b in w.clocks && w.counters[b] + 1 < LIMIT
    ensures RunsTo(w, [BeginUpdate(c, b), IssueRelease(c), SpawnWaiter(c), MakeHandler(c, ok)],
                   Finished(PointsTaken(w, c, b), c, ok))
  {
    var v := Finished(PointsTaken(w, c, b), c, ok);
    TakePoints(w, c, b);
    SpawnAndMakeRun(PointsTaken(w, c, b), c, ok);
    var two := [SpawnWaiter(c), MakeHandler(c, ok)];
    RunsToCons(Begun(w, c, b), IssueRelease(c), two, v);
    RunsToCons(w, BeginUpdate(c, b), [IssueRelease(c)] + two, v);
    assert [BeginUpdate(c, b)] + ([IssueRelease(c)] + two)
        == [BeginUpdate(c, b), IssueRelease(c), SpawnWaiter(c), MakeHandler(c, ok)];
  }
}
