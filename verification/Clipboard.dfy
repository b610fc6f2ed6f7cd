/** The clipboard: one stored selection, broadcast to every client's queue.

    `set_selection` writes the stored selection under one lock and then, under another, appends it to
    every registered client's queue; other clients' tasks run in between. Each client's dispatch loop
    turns queued selections into offers, and `receive` on an offer is queued back to the source's owner. */
module Clipboard {
  import opened Wrappers

  type ClientId = nat
  type ObjectId = nat

  /** The identity of a `wl_data_source` object. `id` lives in the id space of the client that created
      it; `serial` tells apart objects that used the same id one after the other. */
  datatype SourceRef = SourceRef(creator: ClientId, id: ObjectId, serial: nat)

  /** `call` numbers the `set_selection` requests; it only tells equal selections apart. */
  datatype Selection = Selection(source: SourceRef, mimes: seq<string>, owner: ClientId, call: nat)

  datatype Message =
    | Selected(selection: Selection)
    | Send(source: SourceRef, mime: string, ticket: nat)
    | OtherMessage

  datatype Object =
    | SourceObject(source: SourceRef)
    | OfferObject(offered: SourceRef, owner: ClientId)
    | DeviceObject

  datatype Offer = Offer(device: ObjectId, selection: Selection)

  /** `wl_data_source.send`, with the id it is addressed to. */
  datatype SendEvent = SendEvent(id: ObjectId, source: SourceRef, mime: string, ticket: nat)

  /** `device` is the first data device, kept for life; `released` says it was released. `reading` is a
      `get_data_device` that read the clipboard and has not sent its offer. `joined`, `taken`, `offers`,
      `sends` and `asked` are histories: the log's length at registration, the selections dequeued, the
      events sent, and the `receive` requests on offers of this client's sources. */
  datatype Client = Client(
    connected: bool,
    joined: nat,
    queue: seq<Message>,
    store: map<ObjectId, Object>,
    device: Option<ObjectId>,
    released: bool,
    reading: Option<Offer>,
    taken: seq<Selection>,
    offers: seq<Offer>,
    sends: seq<SendEvent>,
    asked: seq<SendEvent>)

  /** `storing` holds, per client, a selection that was stored and not yet broadcast. */
  datatype World = World(
    clients: map<ClientId, Client>,
    mimes: map<SourceRef, seq<string>>,
    clipboard: Option<Selection>,
    storing: map<ClientId, Selection>,
    log: seq<Selection>,
    serials: nat,
    calls: nat,
    tickets: nat)

  datatype Step =
    | Connect(c: ClientId)
    | Disconnect(c: ClientId)
    | CreateSource(c: ClientId, id: ObjectId)
    | AddMime(c: ClientId, id: ObjectId, mime: string)
    | DestroyObject(c: ClientId, id: ObjectId)
    | StoreSelection(c: ClientId, id: ObjectId)
    | ClearSelection(c: ClientId)
    | Broadcast(c: ClientId)
    | GetDevice(c: ClientId, id: ObjectId)
    | OfferToDevice(c: ClientId, offerId: ObjectId)
    | Deliver(c: ClientId, offerId: ObjectId)
    | Receive(c: ClientId, id: ObjectId, mime: string)
    | QueueOther(c: ClientId)

  const START := World(map[], map[], None, map[], [], 0, 0, 0)

  const NEW_CLIENT := Client(true, 0, [], map[], None, false, None, [], [], [], [])

  /** A client's task handles one request or message at a time. */
  predicate Idle(w: World, c: ClientId) {
    c in w.clients && w.clients[c].connected && w.clients[c].reading.None? && c !in w.storing
  }

  predicate Enabled(w: World, a: Step) {
    match a
    case Connect(c) => c !in w.clients
    case Disconnect(c) => Idle(w, c)
    case CreateSource(c, id) => Idle(w, c) && id !in w.clients[c].store
    case AddMime(c, id, _) => Idle(w, c) && id in w.clients[c].store && w.clients[c].store[id].SourceObject?
    case DestroyObject(c, id) => Idle(w, c) && id in w.clients[c].store
    case StoreSelection(c, id) => Idle(w, c) && id in w.clients[c].store && w.clients[c].store[id].SourceObject?
    case ClearSelection(c) => Idle(w, c)
    case Broadcast(c) => c in w.storing
    case GetDevice(c, id) => Idle(w, c) && id !in w.clients[c].store
    case OfferToDevice(c, offerId) =>
      c in w.clients && w.clients[c].reading.Some? && w.clients[c].connected && offerId !in w.clients[c].store
    case Deliver(c, offerId) => Idle(w, c) && w.clients[c].queue != [] && offerId !in w.clients[c].store
    case Receive(c, id, _) => Idle(w, c) && id in w.clients[c].store && w.clients[c].store[id].OfferObject?
                              && w.clients[c].store[id].owner in w.clients
    case QueueOther(c) => c in w.clients
  }

  function With(w: World, c: ClientId, client: Client): World {
    w.(clients := w.clients[c := client])
  }

  function MimesOf(w: World, source: SourceRef): seq<string> {
    if source in w.mimes then w.mimes[source] else []
  }

  function Dead(client: Client): Client {
    client.(connected := false, queue := [], reading := None)
  }

  /** `offer_selection`: a new offer object, and the events that announce it. */
  function Offered(client: Client, offer: Offer, offerId: ObjectId): Client {
    client.(store := client.store[offerId := OfferObject(offer.selection.source, offer.selection.owner)],
            offers := client.offers + [offer])
  }

  /** `handle_message` on the head of the queue. An offer for a device that was released fails, and the
      failure ends the client's dispatch loop. */
  function Delivered(client: Client, offerId: ObjectId): Client
    requires client.queue != []
  {
    var rest := client.(queue := client.queue[1..]);
    match client.queue[0]
    case OtherMessage => rest
    case Send(source, mime, ticket) => rest.(sends := client.sends + [SendEvent(source.id, source, mime, ticket)])
    case Selected(selection) =>
      var seen := rest.(taken := client.taken + [selection]);
      if client.device.None? then seen
      else if client.device.value in client.store && client.store[client.device.value].DeviceObject? then
        Offered(seen, Offer(client.device.value, selection), offerId)
      else Dead(seen)
  }

  /** Sending to a client that is gone is silently dropped. */
  function Queued(client: Client, m: Message): Client {
    if client.connected then client.(queue := client.queue + [m]) else client
  }

  /** `get_data_device`: the first device is remembered, and a stored selection is to be offered to the new
      one. */
  function DeviceMade(client: Client, id: ObjectId, clipboard: Option<Selection>): Client {
    client.(store := client.store[id := DeviceObject],
            device := if client.device.Some? then client.device else Some(id),
            reading := if clipboard.Some? then Some(Offer(id, clipboard.value)) else None)
  }

  function Next(w: World, a: Step): World
    requires Enabled(w, a)
  {
    match a
    case Connect(c) => With(w, c, NEW_CLIENT.(joined := |w.log|))
    case Disconnect(c) => With(w, c, Dead(w.clients[c]))
    case CreateSource(c, id) =>
      var source := SourceRef(c, id, w.serials);
      With(w, c, w.clients[c].(store := w.clients[c].store[id := SourceObject(source)]))
        .(mimes := w.mimes[source := []], serials := w.serials + 1)
    case AddMime(c, id, mime) =>
      var source := w.clients[c].store[id].source;
      w.(mimes := w.mimes[source := MimesOf(w, source) + [mime]])
    case DestroyObject(c, id) =>
      var client := w.clients[c];
      With(w, c, client.(store := client.store - {id}, released := client.released || client.device == Some(id)))
    case StoreSelection(c, id) =>
      var source := w.clients[c].store[id].source;
      var selection := Selection(source, MimesOf(w, source), c, w.calls);
      w.(clipboard := Some(selection), storing := w.storing[c := selection], calls := w.calls + 1)
    case ClearSelection(c) => w.(clipboard := None)
    case Broadcast(c) =>
      var selection := w.storing[c];
      w.(clients := map d | d in w.clients :: Queued(w.clients[d], Selected(selection)),
         storing := w.storing - {c},
         log := w.log + [selection])
    case GetDevice(c, id) => With(w, c, DeviceMade(w.clients[c], id, w.clipboard))
    case OfferToDevice(c, offerId) =>
      var client := w.clients[c];
      With(w, c, Offered(client, client.reading.value, offerId).(reading := None))
    case Deliver(c, offerId) => With(w, c, Delivered(w.clients[c], offerId))
    case Receive(c, id, mime) =>
      var offer := w.clients[c].store[id];
      var owner := w.clients[offer.owner];
      var event := SendEvent(offer.offered.id, offer.offered, mime, w.tickets);
      With(w, offer.owner, Queued(owner, Send(offer.offered, mime, w.tickets)).(
             asked := if owner.connected then owner.asked + [event] else owner.asked))
        .(tickets := w.tickets + 1)
    case QueueOther(c) => With(w, c, Queued(w.clients[c], OtherMessage))
  }

  ghost predicate Reachable(w: World, steps: seq<Step>)
    decreases |steps|
  {
    if steps == [] then w == START
    else
      var last := |steps| - 1;
      exists v :: Reachable(v, steps[..last]) && Enabled(v, steps[last]) && w == Next(v, steps[last])
  }

  // ---------------------------------------------------------------------------------------------
  // Agreement on the broadcast log
  // ---------------------------------------------------------------------------------------------

  function Selections(queue: seq<Message>): seq<Selection> {
    if queue == [] then []
    else (if queue[0].Selected? then [queue[0].selection] else []) + Selections(queue[1..])
  }

  lemma {:induction false} SelectionsAppend(q: seq<Message>, m: Message)
    ensures Selections(q + [m]) == Selections(q) + if m.Selected? then [m.selection] else []
  {
    if q == [] {
      assert q + [m] == [m] && [m][1..] == [];
    } else {
      assert (q + [m])[1..] == q[1..] + [m];
      SelectionsAppend(q[1..], m);
      var first := if q[0].Selected? then [q[0].selection] else [];
      var last := if m.Selected? then [m.selection] else [];
      assert first + (Selections(q[1..]) + last) == first + Selections(q[1..]) + last;
    }
  }

  /** What a client took and still has queued is the log from its registration on. */
  ghost predicate LogInv(w: World, c: ClientId)
    requires c in w.clients
  {
    var client := w.clients[c];
    && client.joined <= |w.log|
    && client.taken <= w.log[client.joined..]
    && (client.connected ==> client.taken + Selections(client.queue) == w.log[client.joined..])
  }

  ghost predicate AllLogInv(w: World) {
    forall c | c in w.clients :: LogInv(w, c)
  }

  lemma LogAfterOwnStep(w: World, v: World, c: ClientId)
    requires AllLogInv(w) && v.log == w.log && c in w.clients && c in v.clients && v.clients == w.clients[c := v.clients[c]]
    requires LogInv(v, c)
    ensures AllLogInv(v)
  {
    forall d | d in v.clients ensures LogInv(v, d) {
      assert d != c ==> LogInv(w, d);
    }
  }

  lemma LogAfterBroadcast(w: World, c: ClientId)
    requires AllLogInv(w) && Enabled(w, Broadcast(c))
    ensures AllLogInv(Next(w, Broadcast(c)))
  {
    var v := Next(w, Broadcast(c));
    forall d | d in v.clients ensures LogInv(v, d) {
      assert LogInv(w, d);
      var client := w.clients[d];
      SelectionsAppend(client.queue, Selected(w.storing[c]));
      assert v.log[client.joined..] == w.log[client.joined..] + [w.storing[c]];
      if client.connected {
        assert client.taken + (Selections(client.queue) + [w.storing[c]])
            == client.taken + Selections(client.queue) + [w.storing[c]];
      }
    }
  }

  /** What a delivery does to the client, whatever the message. */
  lemma DeliveredMovesHead(client: Client, offerId: ObjectId)
    requires client.queue != []
    ensures var now := Delivered(client, offerId);
            && now.taken == client.taken + (if client.queue[0].Selected? then [client.queue[0].selection] else [])
            && now.sends == client.sends + SendsIn([client.queue[0]])
            && now.joined == client.joined && now.asked == client.asked
            && (now.connected ==> now.queue == client.queue[1..])
  {
    assert [client.queue[0]][1..] == [];
  }

  lemma LogAfterDeliver(w: World, c: ClientId, offerId: ObjectId)
    requires AllLogInv(w) && Enabled(w, Deliver(c, offerId))
    ensures AllLogInv(Next(w, Deliver(c, offerId)))
  {
    assert LogInv(w, c);
    DeliveredMovesHead(w.clients[c], offerId);
    LogAfterHeadMoved(w, c, Delivered(w.clients[c], offerId));
  }

  lemma LogAfterHeadMoved(w: World, c: ClientId, now: Client)
    requires AllLogInv(w) && c in w.clients && w.clients[c].connected && w.clients[c].queue != []
    requires var client := w.clients[c];
             && now.taken == client.taken + (if client.queue[0].Selected? then [client.queue[0].selection] else [])
             && now.joined == client.joined
             && (now.connected ==> now.queue == client.queue[1..])
    ensures AllLogInv(With(w, c, now))
  {
    var client := w.clients[c];
    assert LogInv(w, c);
    var head := if client.queue[0].Selected? then [client.queue[0].selection] else [];
    var tail := Selections(client.queue[1..]);
    assert client.taken + (head + tail) == client.taken + head + tail;
    assert now.taken <= w.log[client.joined..];
    LogAfterOwnStep(w, With(w, c, now), c);
  }

  lemma LogAfterReceive(w: World, c: ClientId, id: ObjectId, mime: string)
    requires AllLogInv(w) && Enabled(w, Receive(c, id, mime))
    ensures AllLogInv(Next(w, Receive(c, id, mime)))
  {
    var owner := w.clients[c].store[id].owner;
    assert LogInv(w, owner);
    SelectionsAppend(w.clients[owner].queue, Send(w.clients[c].store[id].offered, mime, w.tickets));
    LogAfterOwnStep(w, Next(w, Receive(c, id, mime)), owner);
  }

  lemma LogAfterQueueOther(w: World, c: ClientId)
    requires AllLogInv(w) && Enabled(w, QueueOther(c))
    ensures AllLogInv(Next(w, QueueOther(c)))
  {
    assert LogInv(w, c);
    SelectionsAppend(w.clients[c].queue, OtherMessage);
    assert Selections(w.clients[c].queue) + [] == Selections(w.clients[c].queue);
    LogAfterOwnStep(w, Next(w, QueueOther(c)), c);
  }

  lemma LogAfterStep(w: World, a: Step)
    requires AllLogInv(w) && Enabled(w, a)
    ensures AllLogInv(Next(w, a))
  {
    var v := Next(w, a);
    match a
    case Connect(c) =>
      forall d | d in v.clients ensures LogInv(v, d) {
        assert d != c ==> LogInv(w, d);
        assert v.log[|v.log|..] == [];
      }
    case Broadcast(c) => LogAfterBroadcast(w, c);
    case Deliver(c, offerId) => LogAfterDeliver(w, c, offerId);
    case Receive(c, id, mime) => LogAfterReceive(w, c, id, mime);
    case QueueOther(c) => LogAfterQueueOther(w, c);
    case _ => LogAfterQuietStep(w, a);
  }

  lemma LogAfterQuietStep(w: World, a: Step)
    requires AllLogInv(w) && Enabled(w, a)
    requires !a.Connect? && !a.Broadcast? && !a.Deliver? && !a.Receive? && !a.QueueOther?
    ensures AllLogInv(Next(w, a))
  {
    var v := Next(w, a);
    forall d | d in v.clients ensures LogInv(v, d) {
      assert LogInv(w, d);
    }
  }

  /** In every interleaving, each connected client's delivered plus queued selections are the broadcast
      log from its registration on; a client that is gone took a prefix of it. */
  lemma {:induction false} EveryClientSeesTheLog(w: World, steps: seq<Step>)
    requires Reachable(w, steps)
    ensures forall c | c in w.clients :: LogInv(w, c)
    decreases |steps|
  {
    if steps != [] {
      var last := |steps| - 1;
      var v :| Reachable(v, steps[..last]) && Enabled(v, steps[last]) && w == Next(v, steps[last]);
      EveryClientSeesTheLog(v, steps[..last]);
      LogAfterStep(v, steps[last]);
    }
  }

  // ---------------------------------------------------------------------------------------------
  // Sources and owners
  // ---------------------------------------------------------------------------------------------

  predicate Genuine(source: SourceRef, owner: ClientId) {
    source.creator == owner
  }

  predicate GenuineSelection(known: set<ClientId>, s: Selection) {
    Genuine(s.source, s.owner) && s.owner in known
  }

  predicate GenuineMessage(known: set<ClientId>, c: ClientId, m: Message) {
    match m
    case Selected(s) => GenuineSelection(known, s)
    case Send(source, _, _) => Genuine(source, c)
    case OtherMessage => true
  }

  predicate GenuineObject(known: set<ClientId>, c: ClientId, o: Object) {
    match o
    case SourceObject(source) => Genuine(source, c)
    case OfferObject(offered, owner) => Genuine(offered, owner) && owner in known
    case DeviceObject => true
  }

  /** Every source a client can reach is paired with the client that created it. */
  ghost predicate PairInv(known: set<ClientId>, c: ClientId, client: Client) {
    && (forall i | 0 <= i < |client.queue| :: GenuineMessage(known, c, client.queue[i]))
    && (client.reading.Some? ==> GenuineSelection(known, client.reading.value.selection))
    && (forall id | id in client.store :: GenuineObject(known, c, client.store[id]))
    && (forall i | 0 <= i < |client.sends| ::
          Genuine(client.sends[i].source, c) && client.sends[i].id == client.sends[i].source.id)
  }

  ghost predicate AllPairInv(w: World) {
    var known := w.clients.Keys;
    && (w.clipboard.Some? ==> GenuineSelection(known, w.clipboard.value))
    && (forall c | c in w.storing :: GenuineSelection(known, w.storing[c]))
    && (forall c | c in w.clients :: PairInv(known, c, w.clients[c]))
  }

  lemma PairAfterOwnStep(w: World, c: ClientId, now: Client)
    requires AllPairInv(w) && c in w.clients && PairInv(w.clients.Keys, c, now)
    ensures AllPairInv(With(w, c, now))
  {
    assert With(w, c, now).clients.Keys == w.clients.Keys;
  }

  lemma PairAfterQueued(known: set<ClientId>, c: ClientId, client: Client, m: Message)
    requires PairInv(known, c, client) && GenuineMessage(known, c, m)
    ensures PairInv(known, c, Queued(client, m))
  {
  }

  lemma PairAfterBroadcast(w: World, c: ClientId)
    requires AllPairInv(w) && Enabled(w, Broadcast(c))
    ensures AllPairInv(Next(w, Broadcast(c)))
  {
    var v := Next(w, Broadcast(c));
    assert v.clients.Keys == w.clients.Keys;
    forall d | d in v.clients ensures PairInv(v.clients.Keys, d, v.clients[d]) {
      PairAfterQueued(w.clients.Keys, d, w.clients[d], Selected(w.storing[c]));
    }
  }

  lemma PairAfterReceive(w: World, c: ClientId, id: ObjectId, mime: string)
    requires AllPairInv(w) && Enabled(w, Receive(c, id, mime))
    ensures AllPairInv(Next(w, Receive(c, id, mime)))
  {
    var offer := w.clients[c].store[id];
    assert GenuineObject(w.clients.Keys, c, offer);
    PairAfterQueued(w.clients.Keys, offer.owner, w.clients[offer.owner], Send(offer.offered, mime, w.tickets));
    PairAfterOwnStep(w, offer.owner, Next(w, Receive(c, id, mime)).clients[offer.owner]);
  }

  lemma PairAfterOffered(known: set<ClientId>, c: ClientId, client: Client, offer: Offer, offerId: ObjectId)
    requires PairInv(known, c, client) && GenuineSelection(known, offer.selection)
    ensures PairInv(known, c, Offered(client, offer, offerId))
  {
  }

  lemma PairAfterDelivered(known: set<ClientId>, c: ClientId, client: Client, offerId: ObjectId)
    requires PairInv(known, c, client) && client.queue != []
    ensures PairInv(known, c, Delivered(client, offerId))
  {
    var rest := client.(queue := client.queue[1..]);
    assert GenuineMessage(known, c, client.queue[0]);
    assert PairInv(known, c, rest);
    if client.queue[0].Selected? && client.device.Some? {
      var seen := rest.(taken := client.taken + [client.queue[0].selection]);
      assert PairInv(known, c, seen);
      PairAfterOffered(known, c, seen, Offer(client.device.value, client.queue[0].selection), offerId);
    }
  }

  lemma PairAfterDeliver(w: World, c: ClientId, offerId: ObjectId)
    requires AllPairInv(w) && Enabled(w, Deliver(c, offerId))
    ensures AllPairInv(Next(w, Deliver(c, offerId)))
  {
    PairAfterDelivered(w.clients.Keys, c, w.clients[c], offerId);
    PairAfterOwnStep(w, c, Delivered(w.clients[c], offerId));
  }

  lemma PairAfterObjectStep(w: World, a: Step)
    requires AllPairInv(w) && Enabled(w, a)
    requires a.CreateSource? || a.DestroyObject? || a.GetDevice? || a.OfferToDevice?
    ensures AllPairInv(Next(w, a))
  {
    assert PairInv(w.clients.Keys, a.c, w.clients[a.c]);
    PairAfterOwnStep(w, a.c, Next(w, a).clients[a.c]);
  }

  lemma PairGrows(known: set<ClientId>, more: set<ClientId>, c: ClientId, client: Client)
    requires PairInv(known, c, client) && known <= more
    ensures PairInv(more, c, client)
  {
    forall i | 0 <= i < |client.queue| ensures GenuineMessage(more, c, client.queue[i]) {
      assert GenuineMessage(known, c, client.queue[i]);
    }
    forall id | id in client.store ensures GenuineObject(more, c, client.store[id]) {
      assert GenuineObject(known, c, client.store[id]);
    }
  }

  lemma PairAfterOtherStep(w: World, a: Step)
    requires AllPairInv(w) && Enabled(w, a)
    requires a.Connect? || a.Disconnect? || a.AddMime? || a.StoreSelection? || a.ClearSelection?
    ensures AllPairInv(Next(w, a))
  {
    var v := Next(w, a);
    if a.StoreSelection? {
      assert GenuineObject(w.clients.Keys, a.c, w.clients[a.c].store[a.id]);
    }
    forall d | d in v.clients ensures PairInv(v.clients.Keys, d, v.clients[d]) {
      if d in w.clients {
        assert PairInv(w.clients.Keys, d, w.clients[d]);
        PairGrows(w.clients.Keys, v.clients.Keys, d, w.clients[d]);
      }
    }
  }

  lemma PairAfterQueueOther(w: World, c: ClientId)
    requires AllPairInv(w) && Enabled(w, QueueOther(c))
    ensures AllPairInv(Next(w, QueueOther(c)))
  {
    PairAfterQueued(w.clients.Keys, c, w.clients[c], OtherMessage);
    PairAfterOwnStep(w, c, Queued(w.clients[c], OtherMessage));
  }

  lemma PairAfterStep(w: World, a: Step)
    requires AllPairInv(w) && Enabled(w, a)
    ensures AllPairInv(Next(w, a))
  {
    match a
    case Broadcast(c) => PairAfterBroadcast(w, c);
    case Receive(c, id, mime) => PairAfterReceive(w, c, id, mime);
    case Deliver(c, offerId) => PairAfterDeliver(w, c, offerId);
    case CreateSource(_, _) => PairAfterObjectStep(w, a);
    case DestroyObject(_, _) => PairAfterObjectStep(w, a);
    case GetDevice(_, _) => PairAfterObjectStep(w, a);
    case OfferToDevice(_, _) => PairAfterObjectStep(w, a);
    case QueueOther(c) => PairAfterQueueOther(w, c);
    case _ => PairAfterOtherStep(w, a);
  }

  /** Every selection, offer and queued request names a source together with its creator, so
      `source.send` reaches the client in whose id space `source.id` lives. */
  lemma {:induction false} SourcesStayWithTheirCreators(w: World, steps: seq<Step>)
    requires Reachable(w, steps)
    ensures AllPairInv(w)
    decreases |steps|
  {
    if steps != [] {
      var last := |steps| - 1;
      var v :| Reachable(v, steps[..last]) && Enabled(v, steps[last]) && w == Next(v, steps[last]);
      SourcesStayWithTheirCreators(v, steps[..last]);
      PairAfterStep(v, steps[last]);
    }
  }

  // ---------------------------------------------------------------------------------------------
  // Paste requests
  // ---------------------------------------------------------------------------------------------

  function SendIn(m: Message): seq<SendEvent> {
    match m
    case Send(source, mime, ticket) => [SendEvent(source.id, source, mime, ticket)]
    case _ => []
  }

  function SendsIn(queue: seq<Message>): seq<SendEvent> {
    if queue == [] then [] else SendIn(queue[0]) + SendsIn(queue[1..])
  }

  lemma {:induction false} SendsAppend(q: seq<Message>, m: Message)
    ensures SendsIn(q + [m]) == SendsIn(q) + SendIn(m)
  {
    if q == [] {
      assert q + [m] == [m] && [m][1..] == [];
    } else {
      assert (q + [m])[1..] == q[1..] + [m];
      SendsAppend(q[1..], m);
      assert SendIn(q[0]) + (SendsIn(q[1..]) + SendIn(m)) == SendIn(q[0]) + SendsIn(q[1..]) + SendIn(m);
    }
  }

  /** What a source's owner was sent and still has queued is what was asked of it. */
  ghost predicate PasteInv(w: World, c: ClientId)
    requires c in w.clients
  {
    var client := w.clients[c];
    client.sends <= client.asked && (client.connected ==> client.sends + SendsIn(client.queue) == client.asked)
  }

  ghost predicate AllPasteInv(w: World) {
    forall c | c in w.clients :: PasteInv(w, c)
  }

  lemma PasteAfterOwnStep(w: World, v: World, c: ClientId)
    requires AllPasteInv(w) && c in v.clients && v.clients == w.clients[c := v.clients[c]] && PasteInv(v, c)
    ensures AllPasteInv(v)
  {
    forall d | d in v.clients ensures PasteInv(v, d) {
      assert d != c ==> PasteInv(w, d);
    }
  }

  lemma PasteAfterBroadcast(w: World, c: ClientId)
    requires AllPasteInv(w) && Enabled(w, Broadcast(c))
    ensures AllPasteInv(Next(w, Broadcast(c)))
  {
    var v := Next(w, Broadcast(c));
    forall d | d in v.clients ensures PasteInv(v, d) {
      assert PasteInv(w, d);
      SendsAppend(w.clients[d].queue, Selected(w.storing[c]));
    }
  }

  lemma PasteAfterReceive(w: World, c: ClientId, id: ObjectId, mime: string)
    requires AllPasteInv(w) && Enabled(w, Receive(c, id, mime))
    ensures AllPasteInv(Next(w, Receive(c, id, mime)))
  {
    var v := Next(w, Receive(c, id, mime));
    var offer := w.clients[c].store[id];
    var owner := w.clients[offer.owner];
    var m := Send(offer.offered, mime, w.tickets);
    var event := SendEvent(offer.offered.id, offer.offered, mime, w.tickets);
    assert PasteInv(w, offer.owner);
    SendsAppend(owner.queue, m);
    assert SendIn(m) == [event];
    assert owner.sends + (SendsIn(owner.queue) + [event]) == owner.sends + SendsIn(owner.queue) + [event];
    PasteAfterOwnStep(w, v, offer.owner);
  }

  lemma PasteAfterHeadMoved(w: World, c: ClientId, now: Client)
    requires AllPasteInv(w) && c in w.clients && w.clients[c].connected && w.clients[c].queue != []
    requires var client := w.clients[c];
             && now.sends == client.sends + SendsIn([client.queue[0]])
             && now.asked == client.asked
             && (now.connected ==> now.queue == client.queue[1..])
    ensures AllPasteInv(With(w, c, now))
  {
    var client := w.clients[c];
    assert PasteInv(w, c);
    var head := SendsIn([client.queue[0]]);
    var tail := SendsIn(client.queue[1..]);
    assert [client.queue[0]][1..] == [];
    assert client.sends + (head + tail) == client.sends + head + tail;
    PasteAfterOwnStep(w, With(w, c, now), c);
  }

  lemma PasteAfterQuietStep(w: World, a: Step)
    requires AllPasteInv(w) && Enabled(w, a)
    requires !a.Broadcast? && !a.Deliver? && !a.Receive? && !a.QueueOther?
    ensures AllPasteInv(Next(w, a))
  {
    var v := Next(w, a);
    forall d | d in v.clients ensures PasteInv(v, d) {
      assert d in w.clients ==> PasteInv(w, d);
    }
  }

  lemma PasteAfterQueueOther(w: World, c: ClientId)
    requires AllPasteInv(w) && Enabled(w, QueueOther(c))
    ensures AllPasteInv(Next(w, QueueOther(c)))
  {
    assert PasteInv(w, c);
    SendsAppend(w.clients[c].queue, OtherMessage);
    assert SendsIn(w.clients[c].queue) + [] == SendsIn(w.clients[c].queue);
    PasteAfterOwnStep(w, Next(w, QueueOther(c)), c);
  }

  lemma PasteAfterStep(w: World, a: Step)
    requires AllPasteInv(w) && Enabled(w, a)
    ensures AllPasteInv(Next(w, a))
  {
    match a
    case Broadcast(c) => PasteAfterBroadcast(w, c);
    case Receive(c, id, mime) => PasteAfterReceive(w, c, id, mime);
    case Deliver(c, offerId) =>
      DeliveredMovesHead(w.clients[c], offerId);
      PasteAfterHeadMoved(w, c, Delivered(w.clients[c], offerId));
    case QueueOther(c) => PasteAfterQueueOther(w, c);
    case _ => PasteAfterQuietStep(w, a);
  }

  /** Each `receive` on an offer of a connected client's source gives exactly one `send` event at that
      client, in the order of the requests; a client that is gone was sent a prefix of them. */
  lemma {:induction false} EveryReceiveIsSentOnce(w: World, steps: seq<Step>)
    requires Reachable(w, steps)
    ensures forall c | c in w.clients :: PasteInv(w, c)
    decreases |steps|
  {
    if steps != [] {
      var last := |steps| - 1;
      var v :| Reachable(v, steps[..last]) && Enabled(v, steps[last]) && w == Next(v, steps[last]);
      EveryReceiveIsSentOnce(v, steps[..last]);
      PasteAfterStep(v, steps[last]);
    }
  }

  // ---------------------------------------------------------------------------------------------
  // The last selection a device sees
  // ---------------------------------------------------------------------------------------------

  function OfDevice(d: ObjectId, offers: seq<Offer>): seq<Selection> {
    if offers == [] then []
    else
      var last := offers[|offers| - 1];
      OfDevice(d, offers[..|offers| - 1]) + if last.device == d then [last.selection] else []
  }

  /** The selections offered to device `d`, about to be, or queued for it, in order. */
  function SeenBy(client: Client, d: ObjectId): seq<Selection> {
    OfDevice(d, client.offers)
      + (if client.reading.Some? && client.reading.value.device == d then [client.reading.value.selection] else [])
      + Selections(client.queue)
  }

  predicate EndsIn(s: seq<Selection>, x: Selection) {
    s != [] && s[|s| - 1] == x
  }

  /** A first data device that was never released. */
  predicate HasDevice(client: Client) {
    client.connected && client.device.Some? && !client.released
  }

  /** The last selection a view holds, if it holds any. */
  function LastOf(s: seq<Selection>): Option<Selection> {
    if s == [] then None else Some(s[|s| - 1])
  }

  /** The first device's view of the clipboard is what is stored. */
  predicate Agrees(w: World, c: ClientId)
    requires c in w.clients && HasDevice(w.clients[c])
  {
    LastOf(SeenBy(w.clients[c], w.clients[c].device.value)) == w.clipboard
  }

  /** A selection that was stored and is still to be broadcast. */
  predicate InFlight(w: World, s: Selection) {
    s in w.storing.Values
  }

  /** A view ends in the last broadcast. */
  predicate EndsAsTheLog(seen: seq<Selection>, log: seq<Selection>) {
    log != [] && EndsIn(seen, log[|log| - 1])
  }

  /** A first device ends on the last broadcast, or on the stored selection if that is not in flight. */
  ghost predicate DeviceInv(w: World, c: ClientId)
    requires c in w.clients
  {
    var client := w.clients[c];
    && (client.device.None? ==> client.offers == [] && client.reading.None?)
    && (HasDevice(client) ==>
      && client.device.value in client.store && client.store[client.device.value] == DeviceObject
      && (EndsAsTheLog(SeenBy(client, client.device.value), w.log)
          || (w.clipboard.Some? && !InFlight(w, w.clipboard.value) ==>
                EndsIn(SeenBy(client, client.device.value), w.clipboard.value))))
  }

  ghost predicate LastInv(w: World) {
    forall c | c in w.clients :: DeviceInv(w, c)
  }

  lemma LastAfterOwnStep(w: World, v: World, c: ClientId, now: Client)
    requires LastInv(w) && c in w.clients && v.clients == w.clients[c := now]
    requires v.storing == w.storing && v.clipboard == w.clipboard && v.log == w.log
    requires now.device.None? ==> w.clients[c].device.None? && now.offers == w.clients[c].offers && now.reading.None?
    requires HasDevice(now) ==> HasDevice(w.clients[c]) && now.device == w.clients[c].device
    requires HasDevice(now) ==> now.device.value in now.store && now.store[now.device.value] == DeviceObject
    requires HasDevice(now) ==> SeenBy(now, now.device.value) == SeenBy(w.clients[c], now.device.value)
    ensures LastInv(v)
  {
    forall d | d in v.clients ensures DeviceInv(v, d) {
      assert DeviceInv(w, d);
    }
  }

  lemma LastAfterBroadcast(w: World, c: ClientId)
    requires LastInv(w) && Enabled(w, Broadcast(c))
    ensures LastInv(Next(w, Broadcast(c)))
  {
    var v := Next(w, Broadcast(c));
    forall d | d in v.clients ensures DeviceInv(v, d) {
      assert DeviceInv(w, d);
      SelectionsAppend(w.clients[d].queue, Selected(w.storing[c]));
    }
  }

  /** A queue that still has selections ends in the last broadcast. */
  lemma QueueEndsAsTheLog(w: World, c: ClientId)
    requires AllLogInv(w) && c in w.clients && w.clients[c].connected
    ensures var q := Selections(w.clients[c].queue); q != [] ==> w.log != [] && EndsIn(q, w.log[|w.log| - 1])
  {
    assert LogInv(w, c);
    var client := w.clients[c];
    var (q, seen) := (Selections(client.queue), w.log[client.joined..]);
    assert client.taken + q == seen;
    assert q != [] ==> q[|q| - 1] == seen[|seen| - 1] == w.log[|w.log| - 1];
  }

  lemma FirstDeviceSees(client: Client, id: ObjectId, clipboard: Option<Selection>, log: seq<Selection>)
    requires Selections(client.queue) != [] ==> EndsAsTheLog(Selections(client.queue), log)
    ensures var seen := SeenBy(DeviceMade(client, id, clipboard), id);
            EndsAsTheLog(seen, log) || (clipboard.Some? ==> EndsIn(seen, clipboard.value))
  {
    var now := DeviceMade(client, id, clipboard);
    var (offered, queued) := (OfDevice(id, now.offers), Selections(now.queue));
    if queued == [] && clipboard.Some? {
      assert SeenBy(now, id) == offered + [clipboard.value];
    }
  }

  lemma LaterDeviceIsNotSeen(client: Client, id: ObjectId, clipboard: Option<Selection>, d: ObjectId)
    requires client.reading.None? && d != id
    ensures SeenBy(DeviceMade(client, id, clipboard), d) == SeenBy(client, d)
  {
  }

  lemma LastAfterGetDevice(w: World, c: ClientId, id: ObjectId)
    requires LastInv(w) && AllLogInv(w) && Enabled(w, GetDevice(c, id))
    ensures LastInv(Next(w, GetDevice(c, id)))
  {
    var v := Next(w, GetDevice(c, id));
    var client := w.clients[c];
    assert DeviceInv(w, c);
    if client.device.None? {
      QueueEndsAsTheLog(w, c);
      FirstDeviceSees(client, id, w.clipboard, w.log);
    } else if HasDevice(client) {
      LaterDeviceIsNotSeen(client, id, w.clipboard, client.device.value);
    }
    forall d | d in v.clients && d != c ensures DeviceInv(v, d) {
      assert DeviceInv(w, d);
    }
  }

  lemma LastAfterOffer(w: World, c: ClientId, offerId: ObjectId)
    requires LastInv(w) && Enabled(w, OfferToDevice(c, offerId))
    ensures LastInv(Next(w, OfferToDevice(c, offerId)))
  {
    assert DeviceInv(w, c);
    var client := w.clients[c];
    var now := Offered(client, client.reading.value, offerId).(reading := None);
    assert now.offers[..|now.offers| - 1] == client.offers;
    LastAfterOwnStep(w, With(w, c, now), c, now);
  }

  /** A selection taken from the queue and offered to `d` is still seen by `d`, at the same place. */
  lemma SeenAfterOffered(client: Client, d: ObjectId, offerId: ObjectId)
    requires client.reading.None? && client.queue != [] && client.queue[0].Selected?
    ensures var s := client.queue[0].selection;
            var rest := client.(queue := client.queue[1..], taken := client.taken + [s]);
            SeenBy(Offered(rest, Offer(d, s), offerId), d) == SeenBy(client, d)
  {
    var s := client.queue[0].selection;
    assert (client.offers + [Offer(d, s)])[..|client.offers|] == client.offers;
    var (head, tail) := (OfDevice(d, client.offers), Selections(client.queue[1..]));
    assert head + [s] + [] + tail == head + [] + ([s] + tail);
  }

  lemma SeenAfterDelivered(client: Client, offerId: ObjectId)
    requires client.reading.None? && client.queue != [] && HasDevice(client) && HasDevice(Delivered(client, offerId))
    ensures SeenBy(Delivered(client, offerId), client.device.value) == SeenBy(client, client.device.value)
  {
    if client.queue[0].Selected? {
      SeenAfterOffered(client, client.device.value, offerId);
    } else {
      assert [] + Selections(client.queue[1..]) == Selections(client.queue[1..]);
    }
  }

  lemma LastAfterDeliver(w: World, c: ClientId, offerId: ObjectId)
    requires LastInv(w) && Enabled(w, Deliver(c, offerId))
    ensures LastInv(Next(w, Deliver(c, offerId)))
  {
    assert DeviceInv(w, c);
    var client := w.clients[c];
    var now := Delivered(client, offerId);
    if HasDevice(now) {
      SeenAfterDelivered(client, offerId);
    }
    LastAfterOwnStep(w, With(w, c, now), c, now);
  }

  lemma SeenAfterQueuedSend(client: Client, m: Message, asked: seq<SendEvent>, d: ObjectId)
    requires m.Send?
    ensures SeenBy(Queued(client, m).(asked := asked), d) == SeenBy(client, d)
  {
    SelectionsAppend(client.queue, m);
    assert Selections(client.queue) + [] == Selections(client.queue);
  }

  lemma LastAfterQueueOther(w: World, c: ClientId)
    requires LastInv(w) && Enabled(w, QueueOther(c))
    ensures LastInv(Next(w, QueueOther(c)))
  {
    assert DeviceInv(w, c);
    SelectionsAppend(w.clients[c].queue, OtherMessage);
    assert Selections(w.clients[c].queue) + [] == Selections(w.clients[c].queue);
    LastAfterOwnStep(w, Next(w, QueueOther(c)), c, Queued(w.clients[c], OtherMessage));
  }

  lemma LastAfterReceive(w: World, c: ClientId, id: ObjectId, mime: string)
    requires LastInv(w) && Enabled(w, Receive(c, id, mime))
    ensures LastInv(Next(w, Receive(c, id, mime)))
  {
    var offer := w.clients[c].store[id];
    var owner := w.clients[offer.owner];
    assert DeviceInv(w, offer.owner);
    var v := Next(w, Receive(c, id, mime));
    var now := v.clients[offer.owner];
    if HasDevice(now) {
      SeenAfterQueuedSend(owner, Send(offer.offered, mime, w.tickets), now.asked, now.device.value);
    }
    LastAfterOwnStep(w, v, offer.owner, now);
  }

  lemma LastAfterStoreOrClear(w: World, a: Step)
    requires LastInv(w) && Enabled(w, a) && (a.StoreSelection? || a.ClearSelection?)
    ensures LastInv(Next(w, a))
  {
    var v := Next(w, a);
    assert a.StoreSelection? ==> v.storing[a.c] == v.clipboard.value;
    forall d | d in v.clients ensures DeviceInv(v, d) {
      assert DeviceInv(w, d);
    }
  }

  lemma LastAfterOtherStep(w: World, a: Step)
    requires LastInv(w) && Enabled(w, a)
    requires a.Connect? || a.Disconnect? || a.CreateSource? || a.AddMime? || a.DestroyObject?
    ensures LastInv(Next(w, a))
  {
    var v := Next(w, a);
    forall d | d in v.clients ensures DeviceInv(v, d) {
      assert d in w.clients ==> DeviceInv(w, d);
    }
  }

  lemma LastAfterStep(w: World, a: Step)
    requires LastInv(w) && AllLogInv(w) && Enabled(w, a)
    ensures LastInv(Next(w, a))
  {
    match a
    case Broadcast(c) => LastAfterBroadcast(w, c);
    case GetDevice(c, id) => LastAfterGetDevice(w, c, id);
    case OfferToDevice(c, offerId) => LastAfterOffer(w, c, offerId);
    case Deliver(c, offerId) => LastAfterDeliver(w, c, offerId);
    case Receive(c, id, mime) => LastAfterReceive(w, c, id, mime);
    case QueueOther(c) => LastAfterQueueOther(w, c);
    case StoreSelection(_, _) => LastAfterStoreOrClear(w, a);
    case ClearSelection(_) => LastAfterStoreOrClear(w, a);
    case _ => LastAfterOtherStep(w, a);
  }

  lemma {:induction false} EveryRunKeepsLastInv(w: World, steps: seq<Step>)
    requires Reachable(w, steps)
    ensures LastInv(w)
    decreases |steps|
  {
    if steps != [] {
      var last := |steps| - 1;
      var v :| Reachable(v, steps[..last]) && Enabled(v, steps[last]) && w == Next(v, steps[last]);
      EveryRunKeepsLastInv(v, steps[..last]);
      EveryClientSeesTheLog(v, steps[..last]);
      LastAfterStep(v, steps[last]);
    }
  }

  /** In every interleaving, with a selection stored and none in flight, an unreleased first device agrees
      exactly when the last broadcast was of the stored selection, or the device does not end on the last
      broadcast: it was created after it and was offered what is stored. */
  lemma DeviceAgreesIff(w: World, steps: seq<Step>, c: ClientId)
    requires Reachable(w, steps) && c in w.clients && HasDevice(w.clients[c])
    requires w.storing == map[] && w.clipboard.Some?
    ensures var seen := SeenBy(w.clients[c], w.clients[c].device.value);
            Agrees(w, c) <==> EndsIn(w.log, w.clipboard.value) || !EndsAsTheLog(seen, w.log)
  {
    EveryRunKeepsLastInv(w, steps);
    assert DeviceInv(w, c);
  }

  /** What is stored, in flight and broadcast, by the number of the request. */
  ghost predicate CallInv(w: World) {
    && (w.clipboard.Some? ==> w.clipboard.value.call + 1 == w.calls)
    && (forall x | x in w.log || x in w.storing.Values :: Numbered(w, x))
    && (w.clipboard.Some? ==> InFlight(w, w.clipboard.value) || w.clipboard.value in w.log)
  }

  predicate Numbered(w: World, x: Selection) {
    x.call < w.calls && (w.clipboard.Some? && x.call == w.clipboard.value.call ==> x == w.clipboard.value)
  }

  lemma CallsAfterStore(w: World, c: ClientId, id: ObjectId)
    requires CallInv(w) && Enabled(w, StoreSelection(c, id))
    ensures CallInv(Next(w, StoreSelection(c, id)))
  {
    var v := Next(w, StoreSelection(c, id));
    assert v.storing[c] == v.clipboard.value;
    forall x | x in v.log || x in v.storing.Values ensures Numbered(v, x) {
      assert x in w.log || x in w.storing.Values || x == v.clipboard.value;
      assert x != v.clipboard.value ==> Numbered(w, x);
    }
  }

  lemma CallsAfterBroadcast(w: World, c: ClientId)
    requires CallInv(w) && Enabled(w, Broadcast(c))
    ensures CallInv(Next(w, Broadcast(c)))
  {
    var v := Next(w, Broadcast(c));
    forall x | x in v.log || x in v.storing.Values ensures Numbered(v, x) {
      assert x in w.log || x in w.storing.Values;
      assert Numbered(w, x);
    }
    assert v.log[|w.log|] == w.storing[c] && forall x | x in w.log :: x in v.log;
    if w.clipboard.Some? && InFlight(w, w.clipboard.value) {
      var d :| d in w.storing && w.storing[d] == w.clipboard.value;
      assert d != c ==> d in v.storing && v.storing[d] == w.clipboard.value;
    }
  }

  lemma {:induction false} EveryRunKeepsCallInv(w: World, steps: seq<Step>)
    requires Reachable(w, steps)
    ensures CallInv(w)
    decreases |steps|
  {
    if steps != [] {
      var last := |steps| - 1;
      var v :| Reachable(v, steps[..last]) && Enabled(v, steps[last]) && w == Next(v, steps[last]);
      EveryRunKeepsCallInv(v, steps[..last]);
      match steps[last]
      case StoreSelection(c, id) => CallsAfterStore(v, c, id);
      case Broadcast(c) => CallsAfterBroadcast(v, c);
      case _ => CallsAfterOtherStep(v, steps[last]);
    }
  }

  lemma CallsAfterOtherStep(w: World, a: Step)
    requires CallInv(w) && Enabled(w, a) && !a.StoreSelection? && !a.Broadcast?
    ensures CallInv(Next(w, a))
  {
    var v := Next(w, a);
    assert v.log == w.log && v.storing == w.storing && v.calls == w.calls;
    assert v.clipboard == w.clipboard || v.clipboard.None?;
    forall x | x in v.log || x in v.storing.Values ensures Numbered(v, x) {
      assert Numbered(w, x);
    }
  }

  /** The broadcasts end in the stored selection exactly when the latest request to store one was the
      latest to broadcast: requests may overlap as long as the last one to store comes last. */
  lemma LogEndsInTheStoredIff(w: World, steps: seq<Step>)
    requires Reachable(w, steps) && w.storing == map[] && w.clipboard.Some?
    ensures w.log != [] && w.clipboard.value in w.log
    ensures EndsIn(w.log, w.clipboard.value) <==> w.log[|w.log| - 1].call + 1 == w.calls
  {
    EveryRunKeepsCallInv(w, steps);
    assert w.log != [] ==> Numbered(w, w.log[|w.log| - 1]);
  }

  // ---------------------------------------------------------------------------------------------
  // What a device has seen, and a cleared clipboard
  // ---------------------------------------------------------------------------------------------

  /** What a step broadcasts. */
  function LogOf(w: World, a: Step): seq<Selection>
    requires Enabled(w, a)
  {
    if a.Broadcast? then [w.storing[a.c]] else []
  }

  lemma LogAfter(w: World, a: Step)
    requires Enabled(w, a)
    ensures Next(w, a).log == w.log + LogOf(w, a)
  {
  }

  /** A client's step keeps its first device and what that device has seen. */
  predicate SameView(client: Client, now: Client) {
    && now.device == client.device
    && (HasDevice(now) ==>
          HasDevice(client) && SeenBy(now, client.device.value) == SeenBy(client, client.device.value))
  }

  lemma ViewAfterOffer(w: World, c: ClientId, offerId: ObjectId)
    requires Enabled(w, OfferToDevice(c, offerId)) && w.clients[c].device.Some?
    ensures SameView(w.clients[c], Next(w, OfferToDevice(c, offerId)).clients[c])
  {
    var client := w.clients[c];
    var now := Offered(client, client.reading.value, offerId).(reading := None);
    assert now.offers[..|now.offers| - 1] == client.offers;
  }

  lemma ViewAfterReceive(w: World, c: ClientId, id: ObjectId, mime: string)
    requires Enabled(w, Receive(c, id, mime))
    ensures var owner := w.clients[c].store[id].owner;
            w.clients[owner].device.Some? ==> SameView(w.clients[owner], Next(w, Receive(c, id, mime)).clients[owner])
  {
    var offer := w.clients[c].store[id];
    var owner := w.clients[offer.owner];
    if owner.device.Some? {
      SeenAfterQueuedSend(owner, Send(offer.offered, mime, w.tickets),
                          Next(w, Receive(c, id, mime)).clients[offer.owner].asked, owner.device.value);
    }
  }

  lemma ViewAfterDeliver(w: World, c: ClientId, offerId: ObjectId)
    requires Enabled(w, Deliver(c, offerId)) && w.clients[c].device.Some?
    ensures SameView(w.clients[c], Next(w, Deliver(c, offerId)).clients[c])
  {
    if HasDevice(Delivered(w.clients[c], offerId)) {
      SeenAfterDelivered(w.clients[c], offerId);
    }
  }

  lemma ViewAfterGetDevice(w: World, c: ClientId, id: ObjectId)
    requires DeviceInvOf(w, c) && Enabled(w, GetDevice(c, id)) && w.clients[c].device.Some?
    ensures SameView(w.clients[c], Next(w, GetDevice(c, id)).clients[c])
  {
    if HasDevice(w.clients[c]) {
      LaterDeviceIsNotSeen(w.clients[c], id, w.clipboard, w.clients[c].device.value);
    }
  }

  ghost predicate DeviceInvOf(w: World, c: ClientId) {
    c in w.clients && DeviceInv(w, c)
  }

  lemma ViewAfterQueueOther(w: World, c: ClientId)
    requires Enabled(w, QueueOther(c)) && w.clients[c].device.Some?
    ensures SameView(w.clients[c], Next(w, QueueOther(c)).clients[c])
  {
    SelectionsAppend(w.clients[c].queue, OtherMessage);
    assert Selections(w.clients[c].queue) + [] == Selections(w.clients[c].queue);
  }

  /** Once a client has a first device, only broadcasts add to that device's view, each at its end. */
  lemma ViewGrows(w: World, a: Step, c: ClientId)
    requires DeviceInvOf(w, c) && Enabled(w, a) && w.clients[c].device.Some?
    ensures var (client, v) := (w.clients[c], Next(w, a));
            && c in v.clients && v.clients[c].device == client.device
            && (HasDevice(v.clients[c]) ==>
                  && HasDevice(client)
                  && SeenBy(v.clients[c], client.device.value) == SeenBy(client, client.device.value) + LogOf(w, a))
  {
    var (client, v) := (w.clients[c], Next(w, a));
    var seen := SeenBy(client, client.device.value);
    assert seen + [] == seen;
    match a
    case Broadcast(d) => if HasDevice(client) { ViewAfterBroadcast(w, d, c); }
    case OfferToDevice(d, offerId) => if d == c { ViewAfterOffer(w, c, offerId); }
    case Deliver(d, offerId) => if d == c { ViewAfterDeliver(w, c, offerId); }
    case Receive(d, id, mime) => if w.clients[d].store[id].owner == c { ViewAfterReceive(w, d, id, mime); }
    case GetDevice(d, id) => if d == c { ViewAfterGetDevice(w, c, id); }
    case QueueOther(d) => if d == c { ViewAfterQueueOther(w, c); }
    case _ =>
  }

  lemma ViewAfterBroadcast(w: World, d: ClientId, c: ClientId)
    requires Enabled(w, Broadcast(d)) && c in w.clients && HasDevice(w.clients[c])
    ensures var (client, now) := (w.clients[c], Next(w, Broadcast(d)).clients[c]);
            SeenBy(now, client.device.value) == SeenBy(client, client.device.value) + [w.storing[d]]
  {
    SelectionsAppend(w.clients[c].queue, Selected(w.storing[d]));
  }

  /** `v` is reached from `w` by `more`. */
  ghost predicate RunFrom(w: World, more: seq<Step>, v: World)
    decreases |more|
  {
    if more == [] then v == w
    else
      var last := |more| - 1;
      exists u :: RunFrom(w, more[..last], u) && Enabled(u, more[last]) && v == Next(u, more[last])
  }

  lemma {:induction false} RunsOn(w: World, steps: seq<Step>, more: seq<Step>, v: World) returns (all: seq<Step>)
    requires Reachable(w, steps) && RunFrom(w, more, v)
    ensures Reachable(v, all)
    decreases |more|
  {
    if more == [] {
      all := steps;
    } else {
      var last := |more| - 1;
      var u :| RunFrom(w, more[..last], u) && Enabled(u, more[last]) && v == Next(u, more[last]);
      var before := RunsOn(w, steps, more[..last], u);
      var _, longer := Extend(u, before, more[last]);
      all := longer;
    }
  }

  /** From `w` to `v`, the view of client `c`'s first device grew by exactly what was broadcast. */
  ghost predicate GrewByTheLog(w: World, v: World, c: ClientId)
    requires c in w.clients && w.clients[c].device.Some?
  {
    var d := w.clients[c].device.value;
    && w.log <= v.log && c in v.clients && v.clients[c].device == w.clients[c].device
    && (HasDevice(v.clients[c]) ==>
          HasDevice(w.clients[c]) && SeenBy(v.clients[c], d) == SeenBy(w.clients[c], d) + v.log[|w.log|..])
  }

  lemma GrowsOn(w: World, u: World, a: Step, c: ClientId)
    requires c in w.clients && w.clients[c].device.Some? && GrewByTheLog(w, u, c) && LastInv(u) && Enabled(u, a)
    ensures GrewByTheLog(w, Next(u, a), c)
  {
    assert DeviceInv(u, c);
    ViewGrows(u, a, c);
    LogAfter(u, a);
    AppendedAfter(FirstView(w, c), w.log, u.log, LogOf(u, a));
  }

  function FirstView(w: World, c: ClientId): seq<Selection>
    requires c in w.clients && w.clients[c].device.Some?
  {
    SeenBy(w.clients[c], w.clients[c].device.value)
  }

  lemma AppendedAfter(seen: seq<Selection>, log: seq<Selection>, longer: seq<Selection>, more: seq<Selection>)
    requires log <= longer
    ensures log <= longer + more
    ensures seen + (longer + more)[|log|..] == seen + longer[|log|..] + more
  {
    assert (longer + more)[|log|..] == longer[|log|..] + more;
    assert seen + (longer[|log|..] + more) == seen + longer[|log|..] + more;
  }

  /** In every run an unreleased first device's view grows by exactly what is broadcast. */
  lemma {:induction false} ViewIsTheLogSince(w: World, steps: seq<Step>, more: seq<Step>, v: World, c: ClientId)
    requires Reachable(w, steps) && RunFrom(w, more, v) && c in w.clients && w.clients[c].device.Some?
    ensures GrewByTheLog(w, v, c)
    decreases |more|
  {
    if more == [] {
      assert v.log[|w.log|..] == [] && FirstView(w, c) + [] == FirstView(w, c);
    } else {
      var last := |more| - 1;
      var u :| RunFrom(w, more[..last], u) && Enabled(u, more[last]) && v == Next(u, more[last]);
      ViewIsTheLogSince(w, steps, more[..last], u, c);
      ViewGoesOn(w, steps, more[..last], u, more[last], c);
    }
  }

  lemma ViewGoesOn(w: World, steps: seq<Step>, more: seq<Step>, u: World, a: Step, c: ClientId)
    requires Reachable(w, steps) && RunFrom(w, more, u) && Enabled(u, a)
    requires c in w.clients && w.clients[c].device.Some? && GrewByTheLog(w, u, c)
    ensures GrewByTheLog(w, Next(u, a), c)
  {
    var all := RunsOn(w, steps, more, u);
    EveryRunKeepsLastInv(u, all);
    GrowsOn(w, u, a, c);
  }

  /** A client's first device starts with what is stored, and what the client still has queued. */
  lemma FirstViewIs(w: World, steps: seq<Step>, c: ClientId, id: ObjectId)
    requires Reachable(w, steps) && Enabled(w, GetDevice(c, id)) && w.clients[c].device.None?
    ensures var now := Next(w, GetDevice(c, id)).clients[c];
            && now.device == Some(id)
            && SeenBy(now, id) == (if w.clipboard.Some? then [w.clipboard.value] else []) + Selections(w.clients[c].queue)
  {
    EveryRunKeepsLastInv(w, steps);
    assert DeviceInv(w, c);
    assert OfDevice(id, w.clients[c].offers) == [];
  }

  /** With nothing stored, an unreleased first device agrees exactly when nothing was stored and nothing
      queued for its client when it was created, and nothing was broadcast since. */
  lemma ClearedAgreesIff(w: World, steps: seq<Step>, c: ClientId, id: ObjectId, more: seq<Step>, v: World)
    requires Reachable(w, steps) && Enabled(w, GetDevice(c, id)) && w.clients[c].device.None?
    requires RunFrom(Next(w, GetDevice(c, id)), more, v)
    requires c in v.clients && HasDevice(v.clients[c]) && v.clipboard.None?
    ensures v.clients[c].device == Some(id)
    ensures Agrees(v, c) <==> w.clipboard.None? && Selections(w.clients[c].queue) == [] && v.log == w.log
  {
    var u, longer := Extend(w, steps, GetDevice(c, id));
    FirstViewIs(w, steps, c, id);
    ViewIsTheLogSince(u, longer, more, v, c);
    assert v.log == w.log + v.log[|w.log|..];
  }

  predicate StoresNothing(more: seq<Step>) {
    forall i | 0 <= i < |more| :: !more[i].StoreSelection?
  }

  lemma {:induction false} StaysCleared(w: World, more: seq<Step>, v: World)
    requires RunFrom(w, more, v) && StoresNothing(more) && w.clipboard.None?
    ensures v.clipboard.None?
    decreases |more|
  {
    if more != [] {
      var last := |more| - 1;
      var u :| RunFrom(w, more[..last], u) && Enabled(u, more[last]) && v == Next(u, more[last]);
      assert StoresNothing(more[..last]) && !more[last].StoreSelection?;
      StaysCleared(w, more[..last], u);
    }
  }

  /** Clearing is announced to nobody, so a device that saw any selection disagrees until the next request
      to store one, whatever else happens. */
  lemma DisagreesUntilStored(w: World, steps: seq<Step>, setter: ClientId, more: seq<Step>, v: World, c: ClientId)
    requires Reachable(w, steps) && Enabled(w, ClearSelection(setter)) && c in w.clients && HasDevice(w.clients[c])
    requires SeenBy(w.clients[c], w.clients[c].device.value) != []
    requires RunFrom(Next(w, ClearSelection(setter)), more, v) && StoresNothing(more)
    ensures c in v.clients && v.clipboard.None? && (HasDevice(v.clients[c]) ==> !Agrees(v, c))
  {
    var u, longer := Extend(w, steps, ClearSelection(setter));
    StaysCleared(u, more, v);
    ViewIsTheLogSince(u, longer, more, v, c);
  }

  /** At most one broadcast is in flight, and it is of the stored selection. */
  ghost predicate SerialInv(w: World) {
    && (forall c, d | c in w.storing && d in w.storing :: c == d)
    && (forall c | c in w.storing :: w.clipboard == Some(w.storing[c]))
    && (w.storing == map[] && w.clipboard.Some? ==> EndsIn(w.log, w.clipboard.value))
  }

  /** No `set_selection` starts while the broadcast of another is in flight. */
  predicate Serialized(w: World, a: Step) {
    a.StoreSelection? || a.ClearSelection? ==> w.storing == map[]
  }

  /** `w` is reached by steps among which no two `set_selection` requests overlap. */
  ghost predicate SerialReachable(w: World, steps: seq<Step>)
    decreases |steps|
  {
    if steps == [] then w == START
    else
      var last := |steps| - 1;
      exists v :: SerialReachable(v, steps[..last]) && Enabled(v, steps[last]) && Serialized(v, steps[last])
                  && w == Next(v, steps[last])
  }

  lemma SerialAfterStep(w: World, a: Step)
    requires SerialInv(w) && Enabled(w, a) && Serialized(w, a)
    ensures SerialInv(Next(w, a))
  {
    var v := Next(w, a);
    match a
    case StoreSelection(c, _) => assert forall d | d in v.storing :: d == c;
    case Broadcast(c) => assert v.storing == map[];
    case _ => assert v.storing == w.storing && v.log == w.log && (v.clipboard == w.clipboard || v.clipboard.None?);
  }

  lemma {:induction false} SerialRunsAreRuns(w: World, steps: seq<Step>)
    requires SerialReachable(w, steps)
    ensures SerialInv(w) && Reachable(w, steps)
    decreases |steps|
  {
    if steps != [] {
      var last := |steps| - 1;
      var v :| SerialReachable(v, steps[..last]) && Enabled(v, steps[last]) && Serialized(v, steps[last])
               && w == Next(v, steps[last]);
      SerialRunsAreRuns(v, steps[..last]);
      SerialAfterStep(v, steps[last]);
    }
  }

  /** So with `set_selection` requests serialized and the first device unreleased, the last selection
      offered to it or queued for it is the stored one, whenever one is stored and none is in flight. */
  lemma LastSelectionIsTheStoredOne(w: World, steps: seq<Step>, c: ClientId)
    requires SerialReachable(w, steps) && c in w.clients && HasDevice(w.clients[c])
    requires w.storing == map[] && w.clipboard.Some?
    ensures Agrees(w, c)
  {
    SerialRunsAreRuns(w, steps);
    DeviceAgreesIff(w, steps, c);
  }

  lemma Extend(v: World, steps: seq<Step>, a: Step) returns (w: World, more: seq<Step>)
    requires Reachable(v, steps) && Enabled(v, a)
    ensures more == steps + [a] && w == Next(v, a) && Reachable(w, more)
  {
    w, more := Next(v, a), steps + [a];
    assert more[..|more| - 1] == steps;
  }

  const SETTER := NEW_CLIENT.(store := map[10 := SourceObject(SourceRef(0, 10, 0)), 11 := DeviceObject], device := Some(11))

  const OWNER := NEW_CLIENT.(store := map[10 := SourceObject(SourceRef(0, 10, 0))])

  lemma OneOwner() returns (w: World, steps: seq<Step>)
    ensures Reachable(w, steps)
    ensures w.clients == map[0 := OWNER] && w.storing == map[] && w.clipboard.None? && w.serials == 1 && w.log == []
  {
    w, steps := START, [];
    w, steps := Extend(w, steps, Connect(0));
    w, steps := Extend(w, steps, CreateSource(0, 10));
  }

  lemma OneSetter() returns (w: World, steps: seq<Step>)
    ensures Reachable(w, steps)
    ensures w.clients == map[0 := SETTER] && w.storing == map[] && w.clipboard.None? && w.serials == 1 && w.log == []
  {
    w, steps := OneOwner();
    w, steps := Extend(w, steps, GetDevice(0, 11));
    assert w.clients[0].store == SETTER.store;
  }

  lemma TwoClients() returns (w: World, steps: seq<Step>)
    ensures Reachable(w, steps)
    ensures w.clients == map[0 := SETTER, 1 := NEW_CLIENT] && w.storing == map[] && w.clipboard.None? && w.serials == 1
  {
    w, steps := OneSetter();
    w, steps := Extend(w, steps, Connect(1));
  }

  lemma TwoRequestsOverlap() returns (w: World, steps: seq<Step>, first: Selection, second: Selection)
    ensures Reachable(w, steps) && 0 in w.clients && w.clients[0] == SETTER
    ensures w.storing == map[0 := first, 1 := second] && w.clipboard == Some(second) && first.owner == 0 && second.owner == 1
  {
    w, steps := TwoClients();
    w, steps := Extend(w, steps, CreateSource(1, 10));
    w, steps := Extend(w, steps, StoreSelection(0, 10));
    first := w.storing[0];
    w, steps := Extend(w, steps, StoreSelection(1, 10));
    second := w.storing[1];
  }

  /** The condition can fail: two overlapping requests may broadcast in the opposite order of their
      stores, and then every device ends on a selection that is not the stored one. */
  lemma OverlappingRequestsCanDisagree() returns (w: World, steps: seq<Step>)
    ensures Reachable(w, steps) && 0 in w.clients && HasDevice(w.clients[0])
    ensures w.storing == map[] && w.clipboard.Some?
    ensures !Agrees(w, 0)
  {
    var first, second;
    w, steps, first, second := TwoRequestsOverlap();
    w, steps := BroadcastInReverse(w, steps, first, second);
    SeenPair(first, second);
  }

  lemma BroadcastInReverse(v: World, before: seq<Step>, first: Selection, second: Selection)
    returns (w: World, steps: seq<Step>)
    requires Reachable(v, before) && 0 in v.clients && v.clients[0] == SETTER && v.storing == map[0 := first, 1 := second]
    ensures Reachable(w, steps) && 0 in w.clients && w.storing == map[] && w.clipboard == v.clipboard
    ensures w.clients[0] == SETTER.(queue := [Selected(second), Selected(first)])
  {
    w, steps := BroadcastOne(v, before, 1);
    assert w.storing == map[0 := first];
    w, steps := BroadcastOne(w, steps, 0);
    assert SETTER.queue + [Selected(second)] + [Selected(first)] == [Selected(second), Selected(first)];
  }

  lemma BroadcastOne(v: World, before: seq<Step>, c: ClientId) returns (w: World, steps: seq<Step>)
    requires Reachable(v, before) && 0 in v.clients && c in v.storing
    ensures Reachable(w, steps) && 0 in w.clients && w.storing == v.storing - {c} && w.clipboard == v.clipboard
    ensures w.clients[0] == Queued(v.clients[0], Selected(v.storing[c]))
  {
    w, steps := Extend(v, before, Broadcast(c));
  }

  lemma SeenPair(first: Selection, second: Selection)
    ensures SeenBy(SETTER.(queue := [Selected(second), Selected(first)]), 11) == [second, first]
  {
    var queue := [Selected(second), Selected(first)];
    assert queue[1..] == [Selected(first)] && queue[1..][1..] == [];
    assert Selections([Selected(first)]) == [first];
    assert Selections(queue) == [second] + [first];
    assert OfDevice(11, SETTER.offers) == [];
  }

  /** And clearing leaves what was seen: this device ends on a selection, and nothing is stored. */
  lemma ClearedSelectionStaysSeen() returns (w: World, steps: seq<Step>)
    ensures Reachable(w, steps) && 0 in w.clients && HasDevice(w.clients[0])
    ensures w.storing == map[] && w.clipboard.None? && !Agrees(w, 0)
  {
    w, steps := TwoClients();
    w, steps := Extend(w, steps, StoreSelection(0, 10));
    var stored := w.storing[0];
    assert w.storing == map[0 := stored] && w.clients[0] == SETTER;
    w, steps := BroadcastOne(w, steps, 0);
    w, steps := Extend(w, steps, ClearSelection(0));
    assert w.clients[0].queue == SETTER.queue + [Selected(stored)];
    SelectionsAppend(SETTER.queue, Selected(stored));
    assert Selections(w.clients[0].queue) == [] + [stored];
  }
}
