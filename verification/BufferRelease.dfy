/** Buffer submissions and the release points they own.

    `Buffer::update` takes an acquire and a release point from the buffer's counter, spawns a waiter
    on the release point and hands the point to a `SignalOnDrop` handler. The submit that owns the
    handler's local handle waits in one of its surface's two slots; the panel shell holds a proxy. When
    the shell is replaced, `reapply` gives the same submission a newer release point. A chain is one
    `update` with the `reapply`s that follow it.

    Every atomic operation, lock region and remote call is one step, so the client task, the task
    that switches shells, the peer, the waiters and the handlers interleave freely. */
module BufferRelease {
  import opened Wrappers

  datatype Point = Point(buffer: nat, n: nat)

  /** A live `SignalOnDrop`: who holds a reference to it, and its flag. */
  datatype Handler = Handler(localRef: bool, peerRef: bool, consumed: bool)

  datatype Waiter = Waiter(aborted: bool, finished: bool)

  /** Where a chain's `BufferSubmit` is, or how far the call that makes it has come. */
  datatype Place =
    | NeedsRelease            // `update` took the acquire point
    | NeedsAbort              // `reapply` took the new release point
    | NeedsWaiter
    | NeedsHandler
    | DroppingOld(kept: bool) // `reapply` still holds the handle of the previous point
    | InHand
    | Published
    | InCurrent(surface: nat)
    | InBuffered(surface: nat)
    | ToReapply
    | Dropping
    | Gone

  datatype Chain = Chain(buffer: nat, acquire: nat, releases: seq<nat>, place: Place)

  /** `consumed`, `selfSignals` and `sent` are histories: points the peer consumed, signals made by
      dropped handlers, and release messages queued for the client. */
  datatype World = World(
    counters: map<nat, nat>,
    clocks: map<nat, nat>,
    owner: map<Point, nat>,
    chains: map<nat, Chain>,
    handlers: map<Point, Handler>,
    waiters: map<Point, Waiter>,
    consumed: set<Point>,
    selfSignals: multiset<Point>,
    sent: seq<Point>)

  datatype Step =
    | NewBuffer(b: nat)
    | BeginUpdate(c: nat, b: nat)
    | IssueRelease(c: nat)
    | TakeForReapply(c: nat)
    | IssueReapply(c: nat)
    | AbortOld(c: nat)
    | SpawnWaiter(c: nat)
    | MakeHandler(c: nat, ok: bool)
    | DropOld(c: nat)
    | Publish(c: nat, accepted: bool)
    | StoreCurrent(c: nat, surface: nat, evicted: Option<nat>)
    | StoreBuffered(c: nat, surface: nat, evicted: Option<nat>)
    | TakeBuffered(c: nat)
    | Discard(c: nat)
    | DropSubmit(c: nat)
    | Consume(p: Point)
    | PeerDrops(p: Point)
    | PeerSignals(p: Point)
    | HandlerDropped(p: Point)
    | AcquireSignalled(c: nat)
    | WaiterWakes(p: Point)
    | WaiterGivesUp(p: Point)

  const START := World(map[], map[], map[], map[], map[], map[], {}, multiset{}, [])

  /** The counter is a wrapping 64-bit integer; a run stops before it would repeat a point. */
  const LIMIT: nat := 0x1_0000_0000_0000_0000

  function Newest(ch: Chain): Point
    requires ch.releases != []
  {
    Point(ch.buffer, ch.releases[|ch.releases| - 1])
  }

  function Previous(ch: Chain): Point
    requires |ch.releases| > 1
  {
    Point(ch.buffer, ch.releases[|ch.releases| - 2])
  }

  predicate AtPlace(w: World, c: nat, place: Place) {
    c in w.chains && w.chains[c].place == place
  }

  /** The slot is a mutex-protected option: replacing it gives back what it held. */
  predicate Replaces(w: World, slot: Place, evicted: Option<nat>) {
    match evicted
    case Some(d) => AtPlace(w, d, slot)
    case None => forall d | d in w.chains :: w.chains[d].place != slot
  }

  predicate Enabled(w: World, a: Step) {
    match a
    case NewBuffer(b) => b !in w.counters
    case BeginUpdate(c, b) => c !in w.chains && b in w.counters && b in w.clocks && w.counters[b] < LIMIT
    case IssueRelease(c) =>
      AtPlace(w, c, NeedsRelease) && w.chains[c].buffer in w.counters && w.counters[w.chains[c].buffer] < LIMIT
    case TakeForReapply(c) => c in w.chains && w.chains[c].place.InCurrent?
    case IssueReapply(c) =>
      AtPlace(w, c, ToReapply) && w.chains[c].buffer in w.counters && w.counters[w.chains[c].buffer] < LIMIT
    case AbortOld(c) => AtPlace(w, c, NeedsAbort) && |w.chains[c].releases| > 1 && Previous(w.chains[c]) in w.waiters
    case SpawnWaiter(c) => AtPlace(w, c, NeedsWaiter) && w.chains[c].releases != []
    case MakeHandler(c, _) =>
      AtPlace(w, c, NeedsHandler) && w.chains[c].releases != [] && w.chains[c].buffer in w.clocks
    case DropOld(c) =>
      c in w.chains && w.chains[c].place.DroppingOld? && |w.chains[c].releases| > 1 && Previous(w.chains[c]) in w.handlers
    case Publish(c, _) => AtPlace(w, c, InHand) && w.chains[c].releases != [] && Newest(w.chains[c]) in w.handlers
    case StoreCurrent(c, s, evicted) => AtPlace(w, c, Published) && Replaces(w, InCurrent(s), evicted)
    case StoreBuffered(c, s, evicted) => AtPlace(w, c, InHand) && Replaces(w, InBuffered(s), evicted)
    case TakeBuffered(c) => c in w.chains && w.chains[c].place.InBuffered?
    case Discard(c) =>
      c in w.chains && (w.chains[c].place.InHand? || w.chains[c].place.InCurrent? || w.chains[c].place.InBuffered?)
    case DropSubmit(c) => AtPlace(w, c, Dropping) && w.chains[c].releases != [] && Newest(w.chains[c]) in w.handlers
    case Consume(p) => p in w.handlers && w.handlers[p].peerRef
    case PeerDrops(p) => p in w.handlers && w.handlers[p].peerRef
    case PeerSignals(p) => p in w.consumed && p.buffer in w.clocks
    case HandlerDropped(p) =>
      p in w.handlers && !w.handlers[p].localRef && !w.handlers[p].peerRef && p.buffer in w.clocks
    case AcquireSignalled(c) => c in w.chains && w.chains[c].buffer in w.clocks
    case WaiterWakes(p) =>
      p in w.waiters && !w.waiters[p].finished && p.buffer in w.clocks && p.n <= w.clocks[p.buffer]
    case WaiterGivesUp(p) => p in w.waiters && !w.waiters[p].finished
  }

  function Moved(w: World, c: nat, place: Place): World
    requires c in w.chains
  {
    w.(chains := w.chains[c := w.chains[c].(place := place)])
  }

  function Signalled(w: World, p: Point): World
    requires p.buffer in w.clocks
  {
    w.(clocks := w.clocks[p.buffer := if p.n > w.clocks[p.buffer] then p.n else w.clocks[p.buffer]])
  }

  /** `fetch_add` on the counter, for the release point of chain `c`. */
  function Issued(w: World, c: nat, place: Place): World
    requires c in w.chains && w.chains[c].buffer in w.counters
  {
    var ch := w.chains[c];
    var n := w.counters[ch.buffer];
    w.(counters := w.counters[ch.buffer := n + 1],
       owner := w.owner[Point(ch.buffer, n) := c],
       chains := w.chains[c := ch.(releases := ch.releases + [n], place := place)])
  }

  function Begun(w: World, c: nat, b: nat): World
    requires b in w.counters
  {
    var n := w.counters[b];
    w.(counters := w.counters[b := n + 1],
       owner := w.owner[Point(b, n) := c],
       chains := w.chains[c := Chain(b, n, [], NeedsRelease)])
  }

  function OldAborted(w: World, c: nat): World
    requires c in w.chains && |w.chains[c].releases| > 1 && Previous(w.chains[c]) in w.waiters
  {
    var p := Previous(w.chains[c]);
    Moved(w, c, NeedsWaiter).(waiters := w.waiters[p := w.waiters[p].(aborted := true)])
  }

  function WaiterSpawned(w: World, c: nat): World
    requires c in w.chains && w.chains[c].releases != []
  {
    Moved(w, c, NeedsHandler).(waiters := w.waiters[Newest(w.chains[c]) := Waiter(false, false)])
  }

  /** A handler whose service cannot be created is dropped at once and signals its point. */
  function HandlerMade(w: World, c: nat, ok: bool): World
    requires c in w.chains && w.chains[c].releases != [] && w.chains[c].buffer in w.clocks
  {
    var p := Newest(w.chains[c]);
    var first := |w.chains[c].releases| == 1;
    if ok then
      Moved(w, c, if first then InHand else DroppingOld(true)).(handlers := w.handlers[p := Handler(true, false, false)])
    else
      Signalled(Moved(w, c, if first then Gone else DroppingOld(false)), p).(selfSignals := w.selfSignals + multiset{p})
  }

  function LocalDropped(w: World, c: nat, place: Place, p: Point): World
    requires c in w.chains && p in w.handlers
  {
    Moved(w, c, place).(handlers := w.handlers[p := w.handlers[p].(localRef := false)])
  }

  function SentToPeer(w: World, c: nat, accepted: bool): World
    requires c in w.chains && w.chains[c].releases != [] && Newest(w.chains[c]) in w.handlers
  {
    var p := Newest(w.chains[c]);
    Moved(w, c, Published).(handlers := w.handlers[p := w.handlers[p].(peerRef := w.handlers[p].peerRef || accepted)])
  }

  function Stored(w: World, c: nat, slot: Place, evicted: Option<nat>): World
    requires c in w.chains && (evicted.Some? ==> evicted.value in w.chains)
  {
    Moved(if evicted.Some? then Moved(w, evicted.value, Dropping) else w, c, slot)
  }

  function TakenOver(w: World, p: Point): World
    requires p in w.handlers
  {
    w.(handlers := w.handlers[p := w.handlers[p].(consumed := true)], consumed := w.consumed + {p})
  }

  function LetGo(w: World, p: Point): World
    requires p in w.handlers
  {
    w.(handlers := w.handlers[p := w.handlers[p].(peerRef := false)])
  }

  function HandlerGone(w: World, p: Point): World
    requires p in w.handlers && p.buffer in w.clocks
  {
    var v := w.(handlers := w.handlers - {p});
    if w.handlers[p].consumed then v else Signalled(v, p).(selfSignals := w.selfSignals + multiset{p})
  }

  function Released(w: World, p: Point): World
    requires p in w.waiters
  {
    w.(waiters := w.waiters[p := w.waiters[p].(finished := true)], sent := w.sent + [p])
  }

  function Next(w: World, a: Step): World
    requires Enabled(w, a)
  {
    match a
    case NewBuffer(b) => w.(counters := w.counters[b := 0], clocks := w.clocks[b := 0])
    case BeginUpdate(c, b) => Begun(w, c, b)
    case IssueRelease(c) => Issued(w, c, NeedsWaiter)
    case TakeForReapply(c) => Moved(w, c, ToReapply)
    case IssueReapply(c) => Issued(w, c, NeedsAbort)
    case AbortOld(c) => OldAborted(w, c)
    case SpawnWaiter(c) => WaiterSpawned(w, c)
    case MakeHandler(c, ok) => HandlerMade(w, c, ok)
    case DropOld(c) => LocalDropped(w, c, if w.chains[c].place.kept then InHand else Gone, Previous(w.chains[c]))
    case Publish(c, accepted) => SentToPeer(w, c, accepted)
    case StoreCurrent(c, s, evicted) => Stored(w, c, InCurrent(s), evicted)
    case StoreBuffered(c, s, evicted) => Stored(w, c, InBuffered(s), evicted)
    case TakeBuffered(c) => Moved(w, c, InHand)
    case Discard(c) => Moved(w, c, Dropping)
    case DropSubmit(c) => LocalDropped(w, c, Gone, Newest(w.chains[c]))
    case Consume(p) => TakenOver(w, p)
    case PeerDrops(p) => LetGo(w, p)
    case PeerSignals(p) => Signalled(w, p)
    case HandlerDropped(p) => HandlerGone(w, p)
    case AcquireSignalled(c) => Signalled(w, Point(w.chains[c].buffer, w.chains[c].acquire))
    case WaiterWakes(p) => Released(w, p)
    case WaiterGivesUp(p) => Released(w, p)
  }

  ghost predicate Reachable(w: World, steps: seq<Step>)
    decreases |steps|
  {
    if steps == [] then w == START
    else
      var last := |steps| - 1;
      exists v :: Reachable(v, steps[..last]) && Enabled(v, steps[last]) && w == Next(v, steps[last])
  }

  // ---------------------------------------------------------------------------------------------
  // The invariant, point by point
  // ---------------------------------------------------------------------------------------------

  /** Has the handler of the chain's `i`th release point been created (or failed to be)? */
  predicate Made(ch: Chain, i: nat) {
    i + 1 < |ch.releases| || !(ch.place.NeedsAbort? || ch.place.NeedsWaiter? || ch.place.NeedsHandler?)
  }

  /** Does the program still hold the local handle of the `i`th release point? */
  predicate HoldsLocal(ch: Chain, i: nat) {
    var k := |ch.releases|;
    match ch.place
    case NeedsRelease => false
    case NeedsAbort => i + 2 == k
    case NeedsWaiter => i + 2 == k
    case NeedsHandler => i + 2 == k
    case DroppingOld(kept) => i + 2 == k || (kept && i + 1 == k)
    case Gone => false
    case _ => i + 1 == k
  }

  predicate HasWaiter(ch: Chain, i: nat) {
    i + 1 < |ch.releases| || !(ch.place.NeedsAbort? || ch.place.NeedsWaiter?)
  }

  predicate IsAborted(ch: Chain, i: nat) {
    if ch.place.NeedsAbort? then i + 2 < |ch.releases| else i + 1 < |ch.releases|
  }

  /** The point is owned by a live handler, was consumed by the peer, or was signalled. */
  predicate AccountedFor(w: World, p: Point) {
    p in w.handlers || p in w.consumed || p in w.selfSignals
  }

  ghost predicate PointInv(w: World, c: nat, i: nat)
    requires c in w.chains && i < |w.chains[c].releases|
  {
    var ch := w.chains[c];
    var p := Point(ch.buffer, ch.releases[i]);
    && p in w.owner && w.owner[p] == c
    && (if Made(ch, i) then AccountedFor(w, p) else !AccountedFor(w, p))
    && (HoldsLocal(ch, i) <==> p in w.handlers && w.handlers[p].localRef)
    && (HasWaiter(ch, i) <==> p in w.waiters)
    && (p in w.waiters ==> (w.waiters[p].aborted <==> IsAborted(ch, i)))
    && (p in w.handlers ==> (w.handlers[p].consumed <==> p in w.consumed) && p !in w.selfSignals)
    && (p in w.selfSignals ==>
          w.selfSignals[p] == 1 && p !in w.consumed && p.buffer in w.clocks && p.n <= w.clocks[p.buffer])
  }

  /** A chain's points grow, from its acquire point on. */
  ghost predicate ChainInv(w: World, c: nat)
    requires c in w.chains
  {
    var ch := w.chains[c];
    && ch.buffer in w.counters && ch.buffer in w.clocks
    && ch.acquire < w.counters[ch.buffer]
    && Point(ch.buffer, ch.acquire) in w.owner && w.owner[Point(ch.buffer, ch.acquire)] == c
    && (ch.place.NeedsRelease? <==> ch.releases == [])
    && (ch.place.NeedsAbort? || ch.place.DroppingOld? ==> |ch.releases| > 1)
    && (forall i | 0 <= i < |ch.releases| :: ch.acquire < ch.releases[i] < w.counters[ch.buffer])
    && (forall i, j | 0 <= i < j < |ch.releases| :: ch.releases[i] < ch.releases[j])
  }

  ghost predicate HistoriesOwned(w: World) {
    forall p | p in w.handlers || p in w.waiters || p in w.consumed || p in w.selfSignals :: p in w.owner
  }

  ghost predicate Inv(w: World) {
    && w.clocks.Keys == w.counters.Keys
    && (forall p | p in w.owner :: p.buffer in w.counters && p.n < w.counters[p.buffer] <= LIMIT)
    && HistoriesOwned(w)
    && (forall c | c in w.chains :: ChainInv(w, c))
    && (forall c, i {:trigger PointInv(w, c, i)} | c in w.chains && 0 <= i < |w.chains[c].releases| :: PointInv(w, c, i))
  }

  predicate IsSlot(place: Place) {
    place.InCurrent? || place.InBuffered?
  }

  /** A slot holds at most one submit. */
  ghost predicate SlotsInv(w: World) {
    forall c, d | c in w.chains && d in w.chains && IsSlot(w.chains[c].place) && w.chains[c].place == w.chains[d].place
      :: c == d
  }

  function PointOf(w: World, c: nat, i: nat): Point
    requires c in w.chains && i < |w.chains[c].releases|
  {
    Point(w.chains[c].buffer, w.chains[c].releases[i])
  }

  lemma PointsAreDistinct(w: World, c: nat, i: nat, d: nat, j: nat)
    requires Inv(w) && c in w.chains && i < |w.chains[c].releases| && d in w.chains && j < |w.chains[d].releases|
    requires PointOf(w, c, i) == PointOf(w, d, j)
    ensures c == d && i == j
  {
    assert PointInv(w, c, i) && PointInv(w, d, j);
    assert ChainInv(w, c);
  }

  // ---------------------------------------------------------------------------------------------
  // Every step keeps it
  // ---------------------------------------------------------------------------------------------

  /** The two worlds agree on everything recorded about point `p`. */
  ghost predicate AgreeAt(w: World, v: World, p: Point) {
    && (p in w.owner ==> p in v.owner && v.owner[p] == w.owner[p])
    && (p in v.handlers <==> p in w.handlers) && (p in w.handlers ==> v.handlers[p] == w.handlers[p])
    && (p in v.waiters <==> p in w.waiters) && (p in w.waiters ==> v.waiters[p].aborted == w.waiters[p].aborted)
    && (p in v.consumed <==> p in w.consumed)
    && v.selfSignals[p] == w.selfSignals[p]
    && (p.buffer in w.clocks ==> p.buffer in v.clocks && w.clocks[p.buffer] <= v.clocks[p.buffer])
  }

  /** What a chain's place and length say about its `i`th point is the same. */
  predicate SameStage(ch: Chain, dh: Chain, i: nat) {
    && i < |ch.releases| && i < |dh.releases|
    && dh.buffer == ch.buffer && dh.releases[i] == ch.releases[i]
    && Made(ch, i) == Made(dh, i) && HoldsLocal(ch, i) == HoldsLocal(dh, i)
    && HasWaiter(ch, i) == HasWaiter(dh, i) && IsAborted(ch, i) == IsAborted(dh, i)
  }

  lemma PointFrame(w: World, v: World, c: nat, i: nat)
    requires c in w.chains && c in v.chains && SameStage(w.chains[c], v.chains[c], i)
    requires PointInv(w, c, i) && AgreeAt(w, v, PointOf(w, c, i))
    ensures PointInv(v, c, i)
  {
  }

  /** The chains other than `c` are untouched, and chain `c` only changes its place. */
  ghost predicate OnlyMoves(w: World, v: World, c: nat, place: Place) {
    && c in w.chains && v.chains == w.chains[c := w.chains[c].(place := place)]
    && v.counters == w.counters && v.owner == w.owner
    && v.clocks.Keys == w.clocks.Keys
    && forall b | b in w.clocks :: w.clocks[b] <= v.clocks[b]
  }

  /** A step about the `at`th point of chain `c` keeps the invariant of every other point. */
  lemma OtherPointsKept(w: World, v: World, c: nat, place: Place, at: nat)
    requires Inv(w) && OnlyMoves(w, v, c, place) && at < |w.chains[c].releases|
    requires forall i | 0 <= i < |w.chains[c].releases| && i != at :: SameStage(w.chains[c], v.chains[c], i)
    requires forall p | p != PointOf(w, c, at) :: AgreeAt(w, v, p)
    ensures forall d, i | d in v.chains && 0 <= i < |v.chains[d].releases| && (d != c || i != at) :: PointInv(v, d, i)
  {
    forall d, i | d in v.chains && 0 <= i < |v.chains[d].releases| && (d != c || i != at) ensures PointInv(v, d, i) {
      assert PointInv(w, d, i);
      if PointOf(w, d, i) == PointOf(w, c, at) {
        PointsAreDistinct(w, d, i, c, at);
      }
      PointFrame(w, v, d, i);
    }
  }

  lemma ChainsKept(w: World, v: World, c: nat, place: Place)
    requires Inv(w) && OnlyMoves(w, v, c, place)
    requires !place.NeedsRelease? && w.chains[c].releases != []
    requires place.NeedsAbort? || place.DroppingOld? ==> |w.chains[c].releases| > 1
    ensures forall d | d in v.chains :: ChainInv(v, d)
  {
    forall d | d in v.chains ensures ChainInv(v, d) {
      assert ChainInv(w, d);
    }
  }

  lemma AfterNewBuffer(w: World, b: nat)
    requires Inv(w) && Enabled(w, NewBuffer(b))
    ensures Inv(Next(w, NewBuffer(b)))
  {
    var v := Next(w, NewBuffer(b));
    forall c | c in v.chains ensures ChainInv(v, c) {
      assert ChainInv(w, c);
    }
    forall c, i | c in v.chains && 0 <= i < |v.chains[c].releases| ensures PointInv(v, c, i) {
      assert PointInv(w, c, i);
      PointFrame(w, v, c, i);
    }
  }

  lemma AfterBeginUpdate(w: World, c: nat, b: nat)
    requires Inv(w) && Enabled(w, BeginUpdate(c, b))
    ensures Inv(Next(w, BeginUpdate(c, b)))
  {
    var v := Begun(w, c, b);
    forall d | d in v.chains ensures ChainInv(v, d) {
      assert d != c ==> ChainInv(w, d);
    }
    forall d, i | d in v.chains && 0 <= i < |v.chains[d].releases| ensures PointInv(v, d, i) {
      assert PointInv(w, d, i);
      PointFrame(w, v, d, i);
    }
  }

  lemma PointAfterIssue(w: World, c: nat, place: Place, d: nat, i: nat)
    requires Inv(w) && Issues(w, c, place)
    requires d in w.chains && i < |Issued(w, c, place).chains[d].releases|
    ensures PointInv(Issued(w, c, place), d, i)
  {
    var v := Issued(w, c, place);
    assert ChainInv(w, c);
    if d == c && i == |w.chains[c].releases| {
      assert PointOf(v, c, i) !in w.owner;
    } else {
      assert PointInv(w, d, i);
      PointFrame(w, v, d, i);
    }
  }

  predicate Issues(w: World, c: nat, place: Place) {
    && c in w.chains
    && ((w.chains[c].place == NeedsRelease && place == NeedsWaiter)
        || (w.chains[c].place == ToReapply && place == NeedsAbort))
    && w.chains[c].buffer in w.counters && w.counters[w.chains[c].buffer] < LIMIT
  }

  lemma ChainAfterIssue(w: World, c: nat, place: Place, d: nat)
    requires Inv(w) && Issues(w, c, place) && d in w.chains
    ensures ChainInv(Issued(w, c, place), d)
  {
    assert ChainInv(w, c) && ChainInv(w, d);
  }

  lemma AfterIssue(w: World, c: nat, place: Place)
    requires Inv(w) && Issues(w, c, place)
    ensures Inv(Issued(w, c, place))
  {
    var v := Issued(w, c, place);
    assert ChainInv(w, c);
    forall d | d in v.chains ensures ChainInv(v, d) {
      ChainAfterIssue(w, c, place, d);
    }
    forall d, i | d in v.chains && 0 <= i < |v.chains[d].releases| ensures PointInv(v, d, i) {
      PointAfterIssue(w, c, place, d, i);
    }
  }

  /** Places of a submit that was made, and that is not yet gone. */
  predicate HasSubmit(place: Place) {
    IsSlot(place) || place.InHand? || place.Published? || place.ToReapply? || place.Dropping?
  }

  lemma PointAfterMove(w: World, c: nat, place: Place, d: nat, i: nat)
    requires Inv(w) && c in w.chains && w.chains[c].releases != []
    requires HasSubmit(w.chains[c].place) && HasSubmit(place)
    requires d in w.chains && i < |w.chains[d].releases|
    ensures PointInv(Moved(w, c, place), d, i)
  {
    assert PointInv(w, d, i);
    PointFrame(w, Moved(w, c, place), d, i);
  }

  /** A submit moves to a place where the same handle is held. */
  lemma AfterMove(w: World, c: nat, place: Place)
    requires Inv(w) && c in w.chains && w.chains[c].releases != []
    requires HasSubmit(w.chains[c].place) && HasSubmit(place)
    ensures Inv(Moved(w, c, place))
  {
    var v := Moved(w, c, place);
    ChainsKept(w, v, c, place);
    forall d, i | d in v.chains && 0 <= i < |v.chains[d].releases| ensures PointInv(v, d, i) {
      PointAfterMove(w, c, place, d, i);
    }
  }

  lemma AfterStore(w: World, c: nat, slot: Place, evicted: Option<nat>)
    requires Inv(w) && c in w.chains && Replaces(w, slot, evicted) && IsSlot(slot)
    requires w.chains[c].place.InHand? || w.chains[c].place.Published?
    ensures Inv(Stored(w, c, slot, evicted))
  {
    assert ChainInv(w, c);
    if evicted.Some? {
      assert ChainInv(w, evicted.value);
      AfterMove(w, evicted.value, Dropping);
      AfterMove(Moved(w, evicted.value, Dropping), c, slot);
    } else {
      AfterMove(w, c, slot);
    }
  }

  /** A step that moves chain `c` and touches what is recorded about its `at`th point only. */
  ghost predicate TouchesOne(w: World, v: World, c: nat, at: nat) {
    && c in w.chains && c in v.chains && at < |w.chains[c].releases|
    && OnlyMoves(w, v, c, v.chains[c].place)
    && (forall i | 0 <= i < |w.chains[c].releases| && i != at :: SameStage(w.chains[c], v.chains[c], i))
    && (forall p | p != PointOf(w, c, at) :: AgreeAt(w, v, p))
    && !v.chains[c].place.NeedsRelease?
    && (v.chains[c].place.NeedsAbort? || v.chains[c].place.DroppingOld? ==> |w.chains[c].releases| > 1)
    && HistoriesOwned(v)
  }

  /** Such a step keeps the invariant if it keeps that of the one point. */
  lemma OnePointSuffices(w: World, v: World, c: nat, at: nat)
    requires Inv(w) && TouchesOne(w, v, c, at) && PointInv(v, c, at)
    ensures Inv(v)
  {
    ChainsKept(w, v, c, v.chains[c].place);
    OtherPointsKept(w, v, c, v.chains[c].place, at);
  }

  lemma AbortOldFrame(w: World, c: nat, at: nat)
    requires HistoriesOwned(w) && Enabled(w, AbortOld(c)) && at + 2 == |w.chains[c].releases|
    requires Newest(w.chains[c]) in w.owner && ChainInv(w, c)
    ensures TouchesOne(w, Next(w, AbortOld(c)), c, at)
  {
    var v := Next(w, AbortOld(c));
    assert OnlyMoves(w, v, c, v.chains[c].place);
  }

  lemma PointAfterAbortOld(w: World, c: nat, at: nat)
    requires HistoriesOwned(w) && Enabled(w, AbortOld(c)) && at + 2 == |w.chains[c].releases|
    requires ChainInv(w, c) && PointInv(w, c, at)
    ensures PointInv(Next(w, AbortOld(c)), c, at)
  {
  }

  lemma AfterAbortOld(w: World, c: nat)
    requires Inv(w) && Enabled(w, AbortOld(c))
    ensures Inv(Next(w, AbortOld(c)))
  {
    assert ChainInv(w, c);
    var at := |w.chains[c].releases| - 2;
    assert PointInv(w, c, at) && PointInv(w, c, |w.chains[c].releases| - 1);
    AbortOldFrame(w, c, at);
    PointAfterAbortOld(w, c, at);
    OnePointSuffices(w, Next(w, AbortOld(c)), c, at);
  }

  lemma SpawnWaiterFrame(w: World, c: nat, at: nat)
    requires HistoriesOwned(w) && Enabled(w, SpawnWaiter(c)) && at + 1 == |w.chains[c].releases|
    requires Newest(w.chains[c]) in w.owner && ChainInv(w, c)
    ensures TouchesOne(w, Next(w, SpawnWaiter(c)), c, at)
  {
    var v := Next(w, SpawnWaiter(c));
    assert OnlyMoves(w, v, c, v.chains[c].place);
  }

  lemma PointAfterSpawnWaiter(w: World, c: nat, at: nat)
    requires HistoriesOwned(w) && Enabled(w, SpawnWaiter(c)) && at + 1 == |w.chains[c].releases|
    requires ChainInv(w, c) && PointInv(w, c, at)
    ensures PointInv(Next(w, SpawnWaiter(c)), c, at)
  {
  }

  lemma AfterSpawnWaiter(w: World, c: nat)
    requires Inv(w) && Enabled(w, SpawnWaiter(c))
    ensures Inv(Next(w, SpawnWaiter(c)))
  {
    assert ChainInv(w, c);
    var at := |w.chains[c].releases| - 1;
    assert PointInv(w, c, at) && PointInv(w, c, |w.chains[c].releases| - 1);
    SpawnWaiterFrame(w, c, at);
    PointAfterSpawnWaiter(w, c, at);
    OnePointSuffices(w, Next(w, SpawnWaiter(c)), c, at);
  }

  lemma MakeHandlerFrame(w: World, c: nat, ok: bool, at: nat)
    requires HistoriesOwned(w) && Enabled(w, MakeHandler(c, ok)) && at + 1 == |w.chains[c].releases|
    requires Newest(w.chains[c]) in w.owner && ChainInv(w, c)
    ensures TouchesOne(w, Next(w, MakeHandler(c, ok)), c, at)
  {
    var v := Next(w, MakeHandler(c, ok));
    assert v.selfSignals == if ok then w.selfSignals else w.selfSignals + multiset{Newest(w.chains[c])};
    assert OnlyMoves(w, v, c, v.chains[c].place);
  }

  lemma PointAfterMakeHandler(w: World, c: nat, ok: bool, at: nat)
    requires HistoriesOwned(w) && Enabled(w, MakeHandler(c, ok)) && at + 1 == |w.chains[c].releases|
    requires ChainInv(w, c) && PointInv(w, c, at)
    ensures PointInv(Next(w, MakeHandler(c, ok)), c, at)
  {
  }

  lemma AfterMakeHandler(w: World, c: nat, ok: bool)
    requires Inv(w) && Enabled(w, MakeHandler(c, ok))
    ensures Inv(Next(w, MakeHandler(c, ok)))
  {
    assert ChainInv(w, c);
    var at := |w.chains[c].releases| - 1;
    assert PointInv(w, c, at) && PointInv(w, c, |w.chains[c].releases| - 1);
    MakeHandlerFrame(w, c, ok, at);
    PointAfterMakeHandler(w, c, ok, at);
    OnePointSuffices(w, Next(w, MakeHandler(c, ok)), c, at);
  }

  lemma DropOldFrame(w: World, c: nat, at: nat)
    requires HistoriesOwned(w) && Enabled(w, DropOld(c)) && at + 2 == |w.chains[c].releases|
    requires Newest(w.chains[c]) in w.owner && ChainInv(w, c)
    ensures TouchesOne(w, Next(w, DropOld(c)), c, at)
  {
    var v := Next(w, DropOld(c));
    assert OnlyMoves(w, v, c, v.chains[c].place);
  }

  lemma PointAfterDropOld(w: World, c: nat, at: nat)
    requires HistoriesOwned(w) && Enabled(w, DropOld(c)) && at + 2 == |w.chains[c].releases|
    requires ChainInv(w, c) && PointInv(w, c, at)
    ensures PointInv(Next(w, DropOld(c)), c, at)
  {
  }

  lemma AfterDropOld(w: World, c: nat)
    requires Inv(w) && Enabled(w, DropOld(c))
    ensures Inv(Next(w, DropOld(c)))
  {
    assert ChainInv(w, c);
    var at := |w.chains[c].releases| - 2;
    assert PointInv(w, c, at) && PointInv(w, c, |w.chains[c].releases| - 1);
    DropOldFrame(w, c, at);
    PointAfterDropOld(w, c, at);
    OnePointSuffices(w, Next(w, DropOld(c)), c, at);
  }

  lemma PublishFrame(w: World, c: nat, accepted: bool, at: nat)
    requires HistoriesOwned(w) && Enabled(w, Publish(c, accepted)) && at + 1 == |w.chains[c].releases|
    requires Newest(w.chains[c]) in w.owner && ChainInv(w, c)
    ensures TouchesOne(w, Next(w, Publish(c, accepted)), c, at)
  {
    var v := Next(w, Publish(c, accepted));
    assert OnlyMoves(w, v, c, v.chains[c].place);
  }

  lemma PointAfterPublish(w: World, c: nat, accepted: bool, at: nat)
    requires HistoriesOwned(w) && Enabled(w, Publish(c, accepted)) && at + 1 == |w.chains[c].releases|
    requires ChainInv(w, c) && PointInv(w, c, at)
    ensures PointInv(Next(w, Publish(c, accepted)), c, at)
  {
  }

  lemma AfterPublish(w: World, c: nat, accepted: bool)
    requires Inv(w) && Enabled(w, Publish(c, accepted))
    ensures Inv(Next(w, Publish(c, accepted)))
  {
    assert ChainInv(w, c);
    var at := |w.chains[c].releases| - 1;
    assert PointInv(w, c, at) && PointInv(w, c, |w.chains[c].releases| - 1);
    PublishFrame(w, c, accepted, at);
    PointAfterPublish(w, c, accepted, at);
    OnePointSuffices(w, Next(w, Publish(c, accepted)), c, at);
  }

  lemma DropSubmitFrame(w: World, c: nat, at: nat)
    requires HistoriesOwned(w) && Enabled(w, DropSubmit(c)) && at + 1 == |w.chains[c].releases|
    requires Newest(w.chains[c]) in w.owner && ChainInv(w, c)
    ensures TouchesOne(w, Next(w, DropSubmit(c)), c, at)
  {
    var v := Next(w, DropSubmit(c));
    assert OnlyMoves(w, v, c, v.chains[c].place);
  }

  lemma PointAfterDropSubmit(w: World, c: nat, at: nat)
    requires HistoriesOwned(w) && Enabled(w, DropSubmit(c)) && at + 1 == |w.chains[c].releases|
    requires ChainInv(w, c) && PointInv(w, c, at)
    ensures PointInv(Next(w, DropSubmit(c)), c, at)
  {
  }

  lemma AfterDropSubmit(w: World, c: nat)
    requires Inv(w) && Enabled(w, DropSubmit(c))
    ensures Inv(Next(w, DropSubmit(c)))
  {
    assert ChainInv(w, c);
    var at := |w.chains[c].releases| - 1;
    assert PointInv(w, c, at) && PointInv(w, c, |w.chains[c].releases| - 1);
    DropSubmitFrame(w, c, at);
    PointAfterDropSubmit(w, c, at);
    OnePointSuffices(w, Next(w, DropSubmit(c)), c, at);
  }

  /** A step of the peer, of a handler, of a waiter or of the upload: the chains do not change. */
  ghost predicate SameChains(w: World, v: World) {
    && v.chains == w.chains && v.counters == w.counters && v.owner == w.owner
    && v.clocks.Keys == w.clocks.Keys
    && (forall b | b in w.clocks :: w.clocks[b] <= v.clocks[b])
    && (forall p | p in v.handlers :: p in w.handlers) && v.waiters.Keys == w.waiters.Keys
    && (forall p | p in v.consumed || p in v.selfSignals :: p in w.owner)
  }

  lemma InvAfterOutsideStep(w: World, v: World, p: Point)
    requires Inv(w) && SameChains(w, v) && forall q | q != p :: AgreeAt(w, v, q)
    requires forall c, i | c in w.chains && 0 <= i < |w.chains[c].releases| && PointOf(w, c, i) == p :: PointInv(v, c, i)
    ensures Inv(v)
  {
    forall c | c in v.chains ensures ChainInv(v, c) {
      assert ChainInv(w, c);
    }
    forall c, i | c in v.chains && 0 <= i < |v.chains[c].releases| ensures PointInv(v, c, i) {
      assert PointInv(w, c, i);
      if PointOf(w, c, i) != p {
        PointFrame(w, v, c, i);
      }
    }
  }

  lemma ConsumeFrame(w: World, p: Point)
    requires HistoriesOwned(w) && Enabled(w, Consume(p))
    ensures var v := Next(w, Consume(p)); SameChains(w, v) && forall q | q != p :: AgreeAt(w, v, q)
  {
  }

  lemma PointAfterConsume(w: World, p: Point, c: nat, i: nat)
    requires Enabled(w, Consume(p)) && c in w.chains && i < |w.chains[c].releases| && PointOf(w, c, i) == p
    requires PointInv(w, c, i)
    ensures PointInv(Next(w, Consume(p)), c, i)
  {
  }

  lemma AfterConsume(w: World, p: Point)
    requires Inv(w) && Enabled(w, Consume(p))
    ensures Inv(Next(w, Consume(p)))
  {
    ConsumeFrame(w, p);
    forall c, i | c in w.chains && 0 <= i < |w.chains[c].releases| && PointOf(w, c, i) == p
      ensures PointInv(Next(w, Consume(p)), c, i)
    {
      assert PointInv(w, c, i);
      PointAfterConsume(w, p, c, i);
    }
    InvAfterOutsideStep(w, Next(w, Consume(p)), p);
  }

  lemma PeerDropsFrame(w: World, p: Point)
    requires HistoriesOwned(w) && Enabled(w, PeerDrops(p))
    ensures var v := Next(w, PeerDrops(p)); SameChains(w, v) && forall q | q != p :: AgreeAt(w, v, q)
  {
  }

  lemma PointAfterPeerDrops(w: World, p: Point, c: nat, i: nat)
    requires Enabled(w, PeerDrops(p)) && c in w.chains && i < |w.chains[c].releases| && PointOf(w, c, i) == p
    requires PointInv(w, c, i)
    ensures PointInv(Next(w, PeerDrops(p)), c, i)
  {
  }

  lemma AfterPeerDrops(w: World, p: Point)
    requires Inv(w) && Enabled(w, PeerDrops(p))
    ensures Inv(Next(w, PeerDrops(p)))
  {
    PeerDropsFrame(w, p);
    forall c, i | c in w.chains && 0 <= i < |w.chains[c].releases| && PointOf(w, c, i) == p
      ensures PointInv(Next(w, PeerDrops(p)), c, i)
    {
      assert PointInv(w, c, i);
      PointAfterPeerDrops(w, p, c, i);
    }
    InvAfterOutsideStep(w, Next(w, PeerDrops(p)), p);
  }

  lemma HandlerGoneFrame(w: World, p: Point)
    requires HistoriesOwned(w) && p in w.handlers && p.buffer in w.clocks
    ensures var v := HandlerGone(w, p); SameChains(w, v) && forall q | q != p :: AgreeAt(w, v, q)
  {
    var v := HandlerGone(w, p);
    assert v.selfSignals == if w.handlers[p].consumed then w.selfSignals else w.selfSignals + multiset{p};
    assert v.handlers == w.handlers - {p};
  }

  lemma HandlerDroppedFrame(w: World, p: Point)
    requires HistoriesOwned(w) && Enabled(w, HandlerDropped(p))
    ensures var v := Next(w, HandlerDropped(p)); SameChains(w, v) && forall q | q != p :: AgreeAt(w, v, q)
  {
    HandlerGoneFrame(w, p);
  }

  lemma PointAfterHandlerDropped(w: World, p: Point, c: nat, i: nat)
    requires Enabled(w, HandlerDropped(p)) && c in w.chains && i < |w.chains[c].releases| && PointOf(w, c, i) == p
    requires PointInv(w, c, i)
    ensures PointInv(Next(w, HandlerDropped(p)), c, i)
  {
  }

  lemma AfterHandlerDropped(w: World, p: Point)
    requires Inv(w) && Enabled(w, HandlerDropped(p))
    ensures Inv(Next(w, HandlerDropped(p)))
  {
    HandlerDroppedFrame(w, p);
    forall c, i | c in w.chains && 0 <= i < |w.chains[c].releases| && PointOf(w, c, i) == p
      ensures PointInv(Next(w, HandlerDropped(p)), c, i)
    {
      assert PointInv(w, c, i);
      PointAfterHandlerDropped(w, p, c, i);
    }
    InvAfterOutsideStep(w, Next(w, HandlerDropped(p)), p);
  }

  lemma ReleasedFrame(w: World, p: Point)
    requires HistoriesOwned(w) && p in w.waiters
    ensures SameChains(w, Released(w, p)) && forall q | q != p :: AgreeAt(w, Released(w, p), q)
  {
  }

  /** A waiter that wakes or gives up tells the client, and changes nothing else that is recorded. */
  lemma AfterReleased(w: World, p: Point)
    requires Inv(w) && p in w.waiters
    ensures Inv(Released(w, p))
  {
    ReleasedFrame(w, p);
    forall c, i | c in w.chains && 0 <= i < |w.chains[c].releases| && PointOf(w, c, i) == p
      ensures PointInv(Released(w, p), c, i)
    {
      assert PointInv(w, c, i);
    }
    InvAfterOutsideStep(w, Released(w, p), p);
  }

  lemma AfterSignal(w: World, p: Point)
    requires Inv(w) && p.buffer in w.clocks
    ensures Inv(Signalled(w, p))
  {
    var v := Signalled(w, p);
    forall c, i | c in w.chains && 0 <= i < |w.chains[c].releases| && PointOf(w, c, i) == p ensures PointInv(v, c, i) {
      assert PointInv(w, c, i);
    }
    InvAfterOutsideStep(w, v, p);
  }

  lemma AfterTake(w: World, c: nat)
    requires Inv(w) && Enabled(w, TakeForReapply(c))
    ensures Inv(Next(w, TakeForReapply(c)))
  {
    assert ChainInv(w, c);
    AfterMove(w, c, ToReapply);
  }

  lemma AfterTakeBuffered(w: World, c: nat)
    requires Inv(w) && Enabled(w, TakeBuffered(c))
    ensures Inv(Next(w, TakeBuffered(c)))
  {
    assert ChainInv(w, c);
    AfterMove(w, c, InHand);
  }

  lemma AfterDiscard(w: World, c: nat)
    requires Inv(w) && Enabled(w, Discard(c))
    ensures Inv(Next(w, Discard(c)))
  {
    assert ChainInv(w, c);
    AfterMove(w, c, Dropping);
  }

  /** A step on the way to a submit: within `update` or `reapply`. */
  predicate MakesSubmit(a: Step) {
    a.BeginUpdate? || a.IssueRelease? || a.IssueReapply? || a.AbortOld? || a.SpawnWaiter? || a.MakeHandler? || a.DropOld?
  }

  /** A step that moves a submit that was made. */
  predicate MovesSubmit(a: Step) {
    || a.TakeForReapply? || a.Publish? || a.StoreCurrent? || a.StoreBuffered? || a.TakeBuffered? || a.Discard?
    || a.DropSubmit?
  }

  lemma MakingKeepsInv(w: World, a: Step)
    requires Inv(w) && Enabled(w, a) && MakesSubmit(a)
    ensures Inv(Next(w, a))
  {
    match a
    case BeginUpdate(c, b) => AfterBeginUpdate(w, c, b);
    case IssueRelease(c) => AfterIssue(w, c, NeedsWaiter);
    case IssueReapply(c) => AfterIssue(w, c, NeedsAbort);
    case AbortOld(c) => AfterAbortOld(w, c);
    case SpawnWaiter(c) => AfterSpawnWaiter(w, c);
    case MakeHandler(c, ok) => AfterMakeHandler(w, c, ok);
    case DropOld(c) => AfterDropOld(w, c);
  }

  lemma MovingKeepsInv(w: World, a: Step)
    requires Inv(w) && Enabled(w, a) && MovesSubmit(a)
    ensures Inv(Next(w, a))
  {
    match a
    case TakeForReapply(c) => AfterTake(w, c);
    case Publish(c, accepted) => AfterPublish(w, c, accepted);
    case StoreCurrent(c, s, evicted) => AfterStore(w, c, InCurrent(s), evicted);
    case StoreBuffered(c, s, evicted) => AfterStore(w, c, InBuffered(s), evicted);
    case TakeBuffered(c) => AfterTakeBuffered(w, c);
    case Discard(c) => AfterDiscard(w, c);
    case DropSubmit(c) => AfterDropSubmit(w, c);
  }

  lemma OutsideKeepsInv(w: World, a: Step)
    requires Inv(w) && Enabled(w, a) && !MakesSubmit(a) && !MovesSubmit(a)
    ensures Inv(Next(w, a))
  {
    match a
    case NewBuffer(b) => AfterNewBuffer(w, b);
    case Consume(p) => AfterConsume(w, p);
    case PeerDrops(p) => AfterPeerDrops(w, p);
    case PeerSignals(p) => AfterSignal(w, p);
    case HandlerDropped(p) => AfterHandlerDropped(w, p);
    case AcquireSignalled(c) => AfterSignal(w, Point(w.chains[c].buffer, w.chains[c].acquire));
    case WaiterWakes(p) => AfterReleased(w, p);
    case WaiterGivesUp(p) => AfterReleased(w, p);
  }

  lemma StepKeepsInv(w: World, a: Step)
    requires Inv(w) && Enabled(w, a)
    ensures Inv(Next(w, a))
  {
    if MakesSubmit(a) {
      MakingKeepsInv(w, a);
    } else if MovesSubmit(a) {
      MovingKeepsInv(w, a);
    } else {
      OutsideKeepsInv(w, a);
    }
  }

  lemma {:induction false} ReachableInv(w: World, steps: seq<Step>)
    requires Reachable(w, steps)
    ensures Inv(w) && SlotsInv(w)
    decreases |steps|
  {
    if steps != [] {
      var last := |steps| - 1;
      var v :| Reachable(v, steps[..last]) && Enabled(v, steps[last]) && w == Next(v, steps[last]);
      ReachableInv(v, steps[..last]);
      StepKeepsInv(v, steps[last]);
      SlotsStayExclusive(v, steps[last]);
    }
  }

  /** What is in a slot was there before. */
  ghost predicate SlotsKept(before: map<nat, Chain>, now: map<nat, Chain>) {
    forall d | d in now && IsSlot(now[d].place) :: d in before && before[d].place == now[d].place
  }

  lemma MovedFillsNoSlot(before: map<nat, Chain>, now: map<nat, Chain>, c: nat)
    requires c in now && !IsSlot(now[c].place) && forall d | d in now && d != c :: d in before && now[d] == before[d]
    ensures SlotsKept(before, now)
  {
  }

  lemma IssuedFillsNoSlot(w: World, c: nat, place: Place)
    requires c in w.chains && w.chains[c].buffer in w.counters && !IsSlot(place)
    ensures SlotsKept(w.chains, Issued(w, c, place).chains)
  {
    MovedFillsNoSlot(w.chains, Issued(w, c, place).chains, c);
  }

  lemma HandlerFillsNoSlot(w: World, c: nat, ok: bool)
    requires c in w.chains && w.chains[c].releases != [] && w.chains[c].buffer in w.clocks
    ensures SlotsKept(w.chains, HandlerMade(w, c, ok).chains)
  {
    MovedFillsNoSlot(w.chains, HandlerMade(w, c, ok).chains, c);
  }

  lemma DroppingFillsNoSlot(w: World, c: nat, place: Place, p: Point)
    requires c in w.chains && p in w.handlers && !IsSlot(place)
    ensures SlotsKept(w.chains, LocalDropped(w, c, place, p).chains)
  {
    MovedFillsNoSlot(w.chains, LocalDropped(w, c, place, p).chains, c);
  }

  lemma MakingFillsNoSlot(w: World, a: Step)
    requires Enabled(w, a) && MakesSubmit(a)
    ensures SlotsKept(w.chains, Next(w, a).chains)
  {
    match a
    case BeginUpdate(c, b) => MovedFillsNoSlot(w.chains, Begun(w, c, b).chains, c);
    case IssueRelease(c) => IssuedFillsNoSlot(w, c, NeedsWaiter);
    case IssueReapply(c) => IssuedFillsNoSlot(w, c, NeedsAbort);
    case AbortOld(c) => MovedFillsNoSlot(w.chains, OldAborted(w, c).chains, c);
    case SpawnWaiter(c) => MovedFillsNoSlot(w.chains, WaiterSpawned(w, c).chains, c);
    case MakeHandler(c, ok) => HandlerFillsNoSlot(w, c, ok);
    case DropOld(c) => DroppingFillsNoSlot(w, c, if w.chains[c].place.kept then InHand else Gone, Previous(w.chains[c]));
  }

  lemma MovingFillsNoSlot(w: World, a: Step)
    requires Enabled(w, a) && MovesSubmit(a) && !a.StoreCurrent? && !a.StoreBuffered?
    ensures SlotsKept(w.chains, Next(w, a).chains)
  {
    MovedFillsNoSlot(w.chains, Next(w, a).chains, a.c);
  }

  lemma StoringKeepsExclusive(w: World, c: nat, slot: Place, evicted: Option<nat>)
    requires SlotsInv(w) && c in w.chains && IsSlot(slot) && Replaces(w, slot, evicted) && !IsSlot(w.chains[c].place)
    ensures SlotsInv(Stored(w, c, slot, evicted))
  {
    var v := Stored(w, c, slot, evicted);
    forall d | d in v.chains && d != c ensures v.chains[d].place == w.chains[d].place || v.chains[d].place == Dropping {
    }
    forall d | d in v.chains && d != c ensures v.chains[d].place != slot {
      if w.chains[d].place == slot {
        assert evicted.Some? && d == evicted.value;
      }
    }
  }

  lemma SlotsStayExclusive(w: World, a: Step)
    requires SlotsInv(w) && Enabled(w, a)
    ensures SlotsInv(Next(w, a))
  {
    if a.StoreCurrent? {
      StoringKeepsExclusive(w, a.c, InCurrent(a.surface), a.evicted);
    } else if a.StoreBuffered? {
      StoringKeepsExclusive(w, a.c, InBuffered(a.surface), a.evicted);
    } else if MakesSubmit(a) {
      MakingFillsNoSlot(w, a);
    } else if MovesSubmit(a) {
      MovingFillsNoSlot(w, a);
    } else {
      assert Next(w, a).chains == w.chains;
    }
  }

  // ---------------------------------------------------------------------------------------------
  // What holds in every run
  // ---------------------------------------------------------------------------------------------

  /** Each release point whose handler was created, or could not be, is owned by a live handler, was
      consumed by the peer, or was signalled: exactly once, and never after being consumed. */
  lemma EveryReleaseIsAccountedFor(w: World, steps: seq<Step>, c: nat, i: nat)
    requires Reachable(w, steps) && c in w.chains && i < |w.chains[c].releases| && Made(w.chains[c], i)
    ensures var p := PointOf(w, c, i);
            && (p in w.handlers || p in w.consumed || w.selfSignals[p] == 1)
            && (p in w.selfSignals ==> p !in w.handlers && p !in w.consumed)
            && w.selfSignals[p] <= 1
  {
    ReachableInv(w, steps);
    assert PointInv(w, c, i);
  }

  /** Which of a chain's points has the un-aborted waiter: the newest, or the one before it while
      `reapply` has taken a new point and not yet aborted the old waiter. Between aborting the old and
      spawning the new, and before the first is spawned, there is none. */
  predicate IsWaitedFor(ch: Chain, i: nat) {
    if ch.place.NeedsAbort? then i + 2 == |ch.releases|
    else !ch.place.NeedsWaiter? && i + 1 == |ch.releases|
  }

  /** At every moment, and whether or not its services could be created, a chain has exactly that one
      un-aborted waiter; every earlier point has a waiter that was aborted. */
  lemma OneWaiterPerChain(w: World, steps: seq<Step>, c: nat, i: nat)
    requires Reachable(w, steps) && c in w.chains && i < |w.chains[c].releases|
    ensures var p := PointOf(w, c, i);
            && (p in w.waiters && !w.waiters[p].aborted <==> IsWaitedFor(w.chains[c], i))
            && (i + 1 < |w.chains[c].releases| ==> p in w.waiters)
  {
    ReachableInv(w, steps);
    assert PointInv(w, c, i);
  }

  /** A local handle is never leaked: once a chain's submit is gone, only the peer keeps a handler alive. */
  lemma GoneMeansNoLocalHandle(w: World, steps: seq<Step>, c: nat, i: nat)
    requires Reachable(w, steps) && c in w.chains && i < |w.chains[c].releases| && w.chains[c].place.Gone?
    ensures PointOf(w, c, i) in w.handlers ==> !w.handlers[PointOf(w, c, i)].localRef
  {
    ReachableInv(w, steps);
    assert PointInv(w, c, i);
  }

  /** All points handed out are distinct, an update's acquire point is below its release point, and a
      reapplied release point exceeds every earlier point of its submission. */
  lemma PointsGrow(w: World, steps: seq<Step>, c: nat)
    requires Reachable(w, steps) && c in w.chains
    ensures var ch := w.chains[c];
            && (forall i | 0 <= i < |ch.releases| :: ch.acquire < ch.releases[i])
            && (forall i, j | 0 <= i < j < |ch.releases| :: ch.releases[i] < ch.releases[j])
    ensures forall d | d in w.chains && d != c && w.chains[d].buffer == w.chains[c].buffer ::
              && w.chains[d].acquire != w.chains[c].acquire
              && w.chains[d].acquire !in w.chains[c].releases
              && forall i | 0 <= i < |w.chains[d].releases| :: w.chains[d].releases[i] !in w.chains[c].releases
  {
    ReachableInv(w, steps);
    assert ChainInv(w, c);
    forall d | d in w.chains && d != c && w.chains[d].buffer == w.chains[c].buffer
      ensures w.chains[d].acquire != w.chains[c].acquire && w.chains[d].acquire !in w.chains[c].releases
      ensures forall i | 0 <= i < |w.chains[d].releases| :: w.chains[d].releases[i] !in w.chains[c].releases
    {
      assert ChainInv(w, d);
      forall j | 0 <= j < |w.chains[c].releases| ensures w.chains[d].acquire != w.chains[c].releases[j] {
        assert PointInv(w, c, j);
      }
      forall i, j | 0 <= i < |w.chains[d].releases| && 0 <= j < |w.chains[c].releases|
        ensures w.chains[d].releases[i] != w.chains[c].releases[j]
      {
        assert PointInv(w, c, j) && PointInv(w, d, i);
      }
    }
  }

  /** A slot never holds two submits. */
  lemma SlotsHoldOne(w: World, steps: seq<Step>, c: nat, d: nat)
    requires Reachable(w, steps) && c in w.chains && d in w.chains
    requires IsSlot(w.chains[c].place) && w.chains[d].place == w.chains[c].place
    ensures c == d
  {
    ReachableInv(w, steps);
  }

  // ---------------------------------------------------------------------------------------------
  // No release is lost
  // ---------------------------------------------------------------------------------------------

  ghost predicate RunsTo(w: World, steps: seq<Step>, v: World)
    decreases |steps|
  {
    if steps == [] then v == w
    else Enabled(w, steps[0]) && RunsTo(Next(w, steps[0]), steps[1..], v)
  }

  lemma RunsToCons(w: World, a: Step, steps: seq<Step>, v: World)
    requires Enabled(w, a) && RunsTo(Next(w, a), steps, v)
    ensures RunsTo(w, [a] + steps, v)
  {
    assert ([a] + steps)[1..] == steps;
  }

  lemma Wake(w: World, p: Point) returns (steps: seq<Step>, v: World)
    requires p in w.waiters && !w.waiters[p].finished && p.buffer in w.clocks && p.n <= w.clocks[p.buffer]
    ensures RunsTo(w, steps, v) && p in v.sent && steps == [WaiterWakes(p)]
  {
    v := Next(w, WaiterWakes(p));
    assert v.sent[|w.sent|] == p;
    steps := [WaiterWakes(p)];
    assert steps[1..] == [];
  }

  lemma DropAndWake(w: World, p: Point) returns (steps: seq<Step>, v: World)
    requires p in w.waiters && !w.waiters[p].finished && p.buffer in w.clocks
    requires p in w.handlers && !w.handlers[p].localRef && !w.handlers[p].peerRef && !w.handlers[p].consumed
    ensures RunsTo(w, steps, v) && p in v.sent && forall a | a in steps :: !a.WaiterGivesUp?
  {
    steps, v := Wake(Next(w, HandlerDropped(p)), p);
    RunsToCons(w, HandlerDropped(p), steps, v);
    steps := [HandlerDropped(p)] + steps;
  }

  lemma SignalAndWake(w: World, p: Point) returns (steps: seq<Step>, v: World)
    requires p in w.waiters && !w.waiters[p].finished && p.buffer in w.clocks && p in w.consumed
    ensures RunsTo(w, steps, v) && p in v.sent && forall a | a in steps :: !a.WaiterGivesUp?
  {
    steps, v := Wake(Next(w, PeerSignals(p)), p);
    RunsToCons(w, PeerSignals(p), steps, v);
    steps := [PeerSignals(p)] + steps;
  }

  lemma PeerDropsAndWake(w: World, p: Point) returns (steps: seq<Step>, v: World)
    requires p in w.waiters && !w.waiters[p].finished && p.buffer in w.clocks
    requires p in w.handlers && !w.handlers[p].localRef && w.handlers[p].peerRef && !w.handlers[p].consumed
    ensures RunsTo(w, steps, v) && p in v.sent && forall a | a in steps :: !a.WaiterGivesUp?
  {
    steps, v := DropAndWake(Next(w, PeerDrops(p)), p);
    RunsToCons(w, PeerDrops(p), steps, v);
    steps := [PeerDrops(p)] + steps;
  }

  /** Once a submit is dropped, its newest release still reaches the client: the peer lets go of the
      handler, or signals what it consumed, and the waiter wakes. No waiter has to give up. */
  lemma EveryReleaseCanReachTheClient(w: World, run: seq<Step>, c: nat) returns (steps: seq<Step>, v: World)
    requires Reachable(w, run) && c in w.chains && w.chains[c].place.Gone?
    requires w.chains[c].releases != [] && Newest(w.chains[c]) in w.waiters && !w.waiters[Newest(w.chains[c])].finished
    ensures RunsTo(w, steps, v) && Newest(w.chains[c]) in v.sent
    ensures forall a | a in steps :: !a.WaiterGivesUp?
  {
    var p := Newest(w.chains[c]);
    GoneNewest(w, run, c);
    if p in w.consumed {
      steps, v := SignalAndWake(w, p);
    } else if p in w.handlers {
      if w.handlers[p].peerRef {
        steps, v := PeerDropsAndWake(w, p);
      } else {
        steps, v := DropAndWake(w, p);
      }
    } else {
      steps, v := Wake(w, p);
    }
  }

  lemma GoneNewest(w: World, run: seq<Step>, c: nat)
    requires Reachable(w, run) && c in w.chains && w.chains[c].place.Gone? && w.chains[c].releases != []
    ensures var p := Newest(w.chains[c]);
            && p.buffer in w.clocks
            && (p in w.handlers ==> !w.handlers[p].localRef && (w.handlers[p].consumed <==> p in w.consumed))
            && (p !in w.handlers && p !in w.consumed ==> p.n <= w.clocks[p.buffer])
  {
    ReachableInv(w, run);
    assert ChainInv(w, c) && PointInv(w, c, |w.chains[c].releases| - 1);
  }

  /** A submit in a slot can always be let go of, and lands in the case above. */
  lemma SlotsCanBeEmptied(w: World, run: seq<Step>, c: nat) returns (steps: seq<Step>, v: World)
    requires Reachable(w, run) && c in w.chains && IsSlot(w.chains[c].place)
    ensures RunsTo(w, steps, v) && c in v.chains && v.chains[c].place.Gone?
    ensures v.chains[c].releases == w.chains[c].releases && v.waiters == w.waiters
  {
    ReachableInv(w, run);
    assert ChainInv(w, c) && PointInv(w, c, |w.chains[c].releases| - 1);
    steps, v := EmptySlot(w, c);
  }

  lemma EmptySlot(w: World, c: nat) returns (steps: seq<Step>, v: World)
    requires c in w.chains && IsSlot(w.chains[c].place)
    requires w.chains[c].releases != [] && Newest(w.chains[c]) in w.handlers
    ensures RunsTo(w, steps, v) && c in v.chains && v.chains[c].place.Gone?
    ensures v.chains[c].releases == w.chains[c].releases && v.waiters == w.waiters
  {
    var w1 := Next(w, Discard(c));
    v := Next(w1, DropSubmit(c));
    steps := [DropSubmit(c)];
    assert steps[1..] == [];
    RunsToCons(w, Discard(c), steps, v);
    steps := [Discard(c)] + steps;
  }
}
