/** The clipboard as its requests define it. Each definition below reads a run's steps and nothing else:
    the list of mime types a source was given, what a request to store a selection stores, what is
    broadcast, and what each client is sent. In every run the state of `Clipboard` is what they say. */
module ClipboardRequests {
  import opened Wrappers
  import opened Clipboard

  // ---------------------------------------------------------------------------------------------
  // What the requests say
  // ---------------------------------------------------------------------------------------------

  function CreatesIn(steps: seq<Step>): nat {
    if steps == [] then 0
    else CreatesIn(steps[..|steps| - 1]) + if steps[|steps| - 1].CreateSource? then 1 else 0
  }

  function StoresIn(steps: seq<Step>): nat {
    if steps == [] then 0
    else StoresIn(steps[..|steps| - 1]) + if steps[|steps| - 1].StoreSelection? then 1 else 0
  }

  function ReceivesIn(steps: seq<Step>): nat {
    if steps == [] then 0
    else ReceivesIn(steps[..|steps| - 1]) + if steps[|steps| - 1].Receive? then 1 else 0
  }

  /** The sources created before the last one client `c` created as `id`. */
  function SerialAt(steps: seq<Step>, c: ClientId, id: ObjectId): nat {
    if steps == [] then 0
    else
      var before, a := steps[..|steps| - 1], steps[|steps| - 1];
      if a == CreateSource(c, id) then CreatesIn(before) else SerialAt(before, c, id)
  }

  /** The mime types offered on source `id` of client `c` since it was created, in order. */
  function MimesAt(steps: seq<Step>, c: ClientId, id: ObjectId): seq<string> {
    if steps == [] then []
    else
      var before, a := steps[..|steps| - 1], steps[|steps| - 1];
      if a == CreateSource(c, id) then []
      else if a.AddMime? && a.c == c && a.id == id then MimesAt(before, c, id) + [a.mime]
      else MimesAt(before, c, id)
  }

  /** What a request of client `c` to select its source `id` would store now. */
  function SelectionAt(steps: seq<Step>, c: ClientId, id: ObjectId): Selection {
    Selection(SourceRef(c, id, SerialAt(steps, c, id)), MimesAt(steps, c, id), c, StoresIn(steps))
  }

  function LastStored(steps: seq<Step>, c: ClientId): Option<Selection> {
    if steps == [] then None
    else
      var before, a := steps[..|steps| - 1], steps[|steps| - 1];
      if a.StoreSelection? && a.c == c then Some(SelectionAt(before, c, a.id)) else LastStored(before, c)
  }

  function ClipboardAt(steps: seq<Step>): Option<Selection> {
    if steps == [] then None
    else
      var before, a := steps[..|steps| - 1], steps[|steps| - 1];
      match a
      case StoreSelection(c, id) => Some(SelectionAt(before, c, id))
      case ClearSelection(_) => None
      case _ => ClipboardAt(before)
  }

  /** What step `a` broadcasts: what its client stored last. */
  function BroadcastBy(before: seq<Step>, a: Step): seq<Selection> {
    if a.Broadcast? && LastStored(before, a.c).Some? then [LastStored(before, a.c).value] else []
  }

  function LogAt(steps: seq<Step>): seq<Selection> {
    if steps == [] then []
    else LogAt(steps[..|steps| - 1]) + BroadcastBy(steps[..|steps| - 1], steps[|steps| - 1])
  }

  /** What was stored when client `c` last asked for a device, to be offered to that device. */
  function LastRead(steps: seq<Step>, c: ClientId): Option<Offer> {
    if steps == [] then None
    else
      var before, a := steps[..|steps| - 1], steps[|steps| - 1];
      if a == Connect(c) then None
      else if a.GetDevice? && a.c == c then
        if ClipboardAt(before).Some? then Some(Offer(a.id, ClipboardAt(before).value)) else None
      else LastRead(before, c)
  }

  function FirstDeviceOf(steps: seq<Step>, c: ClientId): Option<ObjectId> {
    if steps == [] then None
    else
      var before, a := steps[..|steps| - 1], steps[|steps| - 1];
      if a == Connect(c) then None
      else if a.GetDevice? && a.c == c && FirstDeviceOf(before, c).None? then Some(a.id)
      else FirstDeviceOf(before, c)
  }

  function DeliveriesTo(steps: seq<Step>, c: ClientId): nat {
    if steps == [] then 0
    else
      var before, a := steps[..|steps| - 1], steps[|steps| - 1];
      if a == Connect(c) then 0 else DeliveriesTo(before, c) + if a.Deliver? && a.c == c then 1 else 0
  }

  /** The messages step `a` sends to client `c`. */
  function MessagesBy(before: seq<Step>, a: Step, c: ClientId): seq<Message>
    decreases |before|, 1
  {
    match a
    case Broadcast(d) => if LastStored(before, d).Some? then [Selected(LastStored(before, d).value)] else []
    case Receive(d, id, mime) =>
      var offered := OfferedAs(before, d, id);
      if offered.Some? && offered.value.owner == c then [Send(offered.value.source, mime, ReceivesIn(before))] else []
    case QueueOther(d) => if d == c then [OtherMessage] else []
    case _ => []
  }

  /** All messages sent to client `c` since it connected. */
  function Inbox(steps: seq<Step>, c: ClientId): seq<Message>
    decreases |steps|, 0
  {
    if steps == [] then []
    else
      var before, a := steps[..|steps| - 1], steps[|steps| - 1];
      if a == Connect(c) then [] else Inbox(before, c) + MessagesBy(before, a, c)
  }

  /** The message client `c` handles next. */
  function Head(steps: seq<Step>, c: ClientId): Option<Message>
    decreases |steps|, 1
  {
    if DeliveriesTo(steps, c) < |Inbox(steps, c)| then Some(Inbox(steps, c)[DeliveriesTo(steps, c)]) else None
  }

  /** The selection that was last offered to client `c` as object `id`. */
  function OfferedAs(steps: seq<Step>, c: ClientId, id: ObjectId): Option<Selection>
    decreases |steps|, 0
  {
    if steps == [] then None
    else
      var before, a := steps[..|steps| - 1], steps[|steps| - 1];
      if a == OfferToDevice(c, id) && LastRead(before, c).Some? then Some(LastRead(before, c).value.selection)
      else if a == Deliver(c, id) && Head(before, c).Some? && Head(before, c).value.Selected? then
        Some(Head(before, c).value.selection)
      else OfferedAs(before, c, id)
  }

  /** What step `a` offers to client `c`. */
  function OffersBy(before: seq<Step>, a: Step, c: ClientId): seq<Offer> {
    if a.OfferToDevice? && a.c == c then
      if LastRead(before, c).Some? then [LastRead(before, c).value] else []
    else if a.Deliver? && a.c == c then
      var (device, head) := (FirstDeviceOf(before, c), Head(before, c));
      if device.Some? && head.Some? && head.value.Selected? then [Offer(device.value, head.value.selection)] else []
    else []
  }

  function OffersTo(steps: seq<Step>, c: ClientId): seq<Offer> {
    if steps == [] then []
    else
      var before, a := steps[..|steps| - 1], steps[|steps| - 1];
      if a == Connect(c) then [] else OffersTo(before, c) + OffersBy(before, a, c)
  }

  // ---------------------------------------------------------------------------------------------
  // Sources and their mime types
  // ---------------------------------------------------------------------------------------------

  predicate HasSource(clients: map<ClientId, Client>, c: ClientId, id: ObjectId) {
    c in clients && id in clients[c].store && clients[c].store[id].SourceObject?
  }

  /** A source object is the one last created under its id, with the mime types offered on it since. */
  ghost predicate SourceFollows(w: World, steps: seq<Step>, c: ClientId, id: ObjectId)
    requires HasSource(w.clients, c, id)
  {
    var source := w.clients[c].store[id].source;
    source == SourceRef(c, id, SerialAt(steps, c, id)) && MimesOf(w, source) == MimesAt(steps, c, id)
  }

  ghost predicate SourcesFollow(w: World, steps: seq<Step>) {
    && w.serials == CreatesIn(steps)
    && forall c, id | HasSource(w.clients, c, id) :: SourceFollows(w, steps, c, id)
  }

  /** No client has a source it did not have before. */
  ghost predicate NoNewSource(before: map<ClientId, Client>, now: map<ClientId, Client>) {
    forall c, id | HasSource(now, c, id) :: HasSource(before, c, id) && now[c].store[id] == before[c].store[id]
  }

  lemma DeliveredMakesNoSource(client: Client, offerId: ObjectId, id: ObjectId)
    requires client.queue != []
    requires id in Delivered(client, offerId).store && Delivered(client, offerId).store[id].SourceObject?
    ensures id in client.store && Delivered(client, offerId).store[id] == client.store[id]
  {
  }

  lemma StepMakesNoSource(w: World, a: Step)
    requires Enabled(w, a) && !a.CreateSource?
    ensures NoNewSource(w.clients, Next(w, a).clients)
  {
    if a.Deliver? {
      forall c, id | HasSource(Next(w, a).clients, c, id)
        ensures HasSource(w.clients, c, id) && Next(w, a).clients[c].store[id] == w.clients[c].store[id]
      {
        if c == a.c {
          DeliveredMakesNoSource(w.clients[c], a.offerId, id);
        }
      }
    }
  }

  lemma FoldsAfterCreate(steps: seq<Step>, c: ClientId, id: ObjectId, d: ClientId, x: ObjectId)
    ensures var (more, isNew) := (steps + [CreateSource(c, id)], d == c && x == id);
            && CreatesIn(more) == CreatesIn(steps) + 1
            && SerialAt(more, d, x) == (if isNew then CreatesIn(steps) else SerialAt(steps, d, x))
            && MimesAt(more, d, x) == (if isNew then [] else MimesAt(steps, d, x))
  {
    assert (steps + [CreateSource(c, id)])[..|steps|] == steps;
  }

  /** A new source leaves the others and their mime types alone. */
  lemma SourceAfterCreate(w: World, c: ClientId, id: ObjectId, d: ClientId, x: ObjectId)
    requires Enabled(w, CreateSource(c, id)) && (d != c || x != id)
    requires HasSource(Next(w, CreateSource(c, id)).clients, d, x)
    ensures HasSource(w.clients, d, x)
    ensures Next(w, CreateSource(c, id)).clients[d].store[x] == w.clients[d].store[x]
    ensures var source := w.clients[d].store[x].source;
            source.creator == d && source.id == x ==> MimesOf(Next(w, CreateSource(c, id)), source) == MimesOf(w, source)
  {
  }

  lemma SourcesAfterCreate(w: World, steps: seq<Step>, c: ClientId, id: ObjectId)
    requires SourcesFollow(w, steps) && Enabled(w, CreateSource(c, id))
    ensures SourcesFollow(Next(w, CreateSource(c, id)), steps + [CreateSource(c, id)])
  {
    var v, more := Next(w, CreateSource(c, id)), steps + [CreateSource(c, id)];
    forall d, x | HasSource(v.clients, d, x) ensures SourceFollows(v, more, d, x) {
      FoldsAfterCreate(steps, c, id, d, x);
      if d != c || x != id {
        SourceAfterCreate(w, c, id, d, x);
        assert SourceFollows(w, steps, d, x);
      }
    }
    FoldsAfterCreate(steps, c, id, c, id);
  }

  lemma SourcesAfterMime(w: World, steps: seq<Step>, c: ClientId, id: ObjectId, mime: string)
    requires SourcesFollow(w, steps) && Enabled(w, AddMime(c, id, mime))
    ensures SourcesFollow(Next(w, AddMime(c, id, mime)), steps + [AddMime(c, id, mime)])
  {
    var v, more := Next(w, AddMime(c, id, mime)), steps + [AddMime(c, id, mime)];
    assert more[..|steps|] == steps;
    assert SourceFollows(w, steps, c, id);
    forall d, x | HasSource(v.clients, d, x) ensures SourceFollows(v, more, d, x) {
      assert HasSource(w.clients, d, x) && SourceFollows(w, steps, d, x);
    }
  }

  lemma SourcesAfterOther(w: World, steps: seq<Step>, a: Step, v: World)
    requires SourcesFollow(w, steps) && !a.CreateSource? && !a.AddMime?
    requires NoNewSource(w.clients, v.clients) && v.mimes == w.mimes && v.serials == w.serials
    ensures SourcesFollow(v, steps + [a])
  {
    assert (steps + [a])[..|steps|] == steps;
    forall c, id | HasSource(v.clients, c, id) ensures SourceFollows(v, steps + [a], c, id) {
      assert SourceFollows(w, steps, c, id);
    }
  }

  lemma SourcesAfterStep(w: World, steps: seq<Step>, a: Step)
    requires SourcesFollow(w, steps) && Enabled(w, a)
    ensures SourcesFollow(Next(w, a), steps + [a])
  {
    match a
    case CreateSource(c, id) => SourcesAfterCreate(w, steps, c, id);
    case AddMime(c, id, mime) => SourcesAfterMime(w, steps, c, id, mime);
    case _ =>
      StepMakesNoSource(w, a);
      SourcesAfterOther(w, steps, a, Next(w, a));
  }

  // ---------------------------------------------------------------------------------------------
  // What is stored and broadcast
  // ---------------------------------------------------------------------------------------------

  ghost predicate StoresFollow(w: World, steps: seq<Step>) {
    && w.calls == StoresIn(steps)
    && w.tickets == ReceivesIn(steps)
    && w.clipboard == ClipboardAt(steps)
    && w.log == LogAt(steps)
    && forall c | c in w.storing :: LastStored(steps, c) == Some(w.storing[c])
  }

  lemma StoresAfterStore(w: World, steps: seq<Step>, c: ClientId, id: ObjectId)
    requires SourcesFollow(w, steps) && StoresFollow(w, steps) && Enabled(w, StoreSelection(c, id))
    ensures StoresFollow(Next(w, StoreSelection(c, id)), steps + [StoreSelection(c, id)])
  {
    assert (steps + [StoreSelection(c, id)])[..|steps|] == steps;
    assert HasSource(w.clients, c, id) && SourceFollows(w, steps, c, id);
  }

  lemma StoresAfterBroadcast(w: World, steps: seq<Step>, c: ClientId)
    requires StoresFollow(w, steps) && Enabled(w, Broadcast(c))
    ensures StoresFollow(Next(w, Broadcast(c)), steps + [Broadcast(c)])
  {
    assert (steps + [Broadcast(c)])[..|steps|] == steps;
  }

  lemma StoresAfterOther(w: World, steps: seq<Step>, a: Step, v: World)
    requires StoresFollow(w, steps) && !a.StoreSelection? && !a.Broadcast?
    requires v.calls == w.calls && v.log == w.log && v.storing == w.storing
    requires v.tickets == w.tickets + (if a.Receive? then 1 else 0)
    requires v.clipboard == if a.ClearSelection? then None else w.clipboard
    ensures StoresFollow(v, steps + [a])
  {
    assert (steps + [a])[..|steps|] == steps;
  }

  lemma StoresAfterStep(w: World, steps: seq<Step>, a: Step)
    requires SourcesFollow(w, steps) && StoresFollow(w, steps) && Enabled(w, a)
    ensures StoresFollow(Next(w, a), steps + [a])
  {
    match a
    case StoreSelection(c, id) => StoresAfterStore(w, steps, c, id);
    case Broadcast(c) => StoresAfterBroadcast(w, steps, c);
    case _ => StoresAfterOther(w, steps, a, Next(w, a));
  }

  // ---------------------------------------------------------------------------------------------
  // What each client is sent
  // ---------------------------------------------------------------------------------------------

  predicate HasOffer(client: Client, id: ObjectId) {
    id in client.store && client.store[id].OfferObject?
  }

  /** An offer object stands for the selection last offered under its id. */
  predicate OfferFollows(client: Client, steps: seq<Step>, c: ClientId, id: ObjectId)
    requires HasOffer(client, id)
  {
    var offered := OfferedAs(steps, c, id);
    offered.Some? && client.store[id] == OfferObject(offered.value.source, offered.value.owner)
  }

  /** The messages a client handled, and those still in its queue. */
  ghost predicate QueueFollows(client: Client, inbox: seq<Message>, n: nat) {
    && n <= |inbox|
    && client.taken == Selections(inbox[..n]) && client.sends == SendsIn(inbox[..n])
    && (client.connected ==> client.queue == inbox[n..])
  }

  /** A client that is gone may have failed on its last offer. */
  ghost predicate OffersFollow(client: Client, offers: seq<Offer>) {
    client.offers <= offers && (client.connected ==> client.offers == offers)
  }

  ghost predicate ClientFollows(client: Client, steps: seq<Step>, c: ClientId) {
    && QueueFollows(client, Inbox(steps, c), DeliveriesTo(steps, c))
    && OffersFollow(client, OffersTo(steps, c))
    && client.device == FirstDeviceOf(steps, c)
    && (client.reading.Some? ==> client.reading == LastRead(steps, c))
    && forall id | HasOffer(client, id) :: OfferFollows(client, steps, c, id)
  }

  ghost predicate ClientsFollow(w: World, steps: seq<Step>) {
    forall c | c in w.clients :: ClientFollows(w.clients[c], steps, c)
  }

  /** Is step `a` a step of client `c` that bears on what it is sent? */
  predicate Concerns(a: Step, c: ClientId) {
    a.c == c && (a.Connect? || a.GetDevice? || a.OfferToDevice? || a.Deliver?)
  }

  lemma FoldsKept(steps: seq<Step>, a: Step, c: ClientId)
    requires !Concerns(a, c)
    ensures DeliveriesTo(steps + [a], c) == DeliveriesTo(steps, c) && OffersTo(steps + [a], c) == OffersTo(steps, c)
    ensures FirstDeviceOf(steps + [a], c) == FirstDeviceOf(steps, c) && LastRead(steps + [a], c) == LastRead(steps, c)
    ensures Inbox(steps + [a], c) == Inbox(steps, c) + MessagesBy(steps, a, c)
  {
    assert (steps + [a])[..|steps|] == steps;
    assert OffersTo(steps, c) + [] == OffersTo(steps, c);
  }

  lemma OfferedKept(steps: seq<Step>, a: Step, c: ClientId, id: ObjectId)
    requires a != OfferToDevice(c, id) && a != Deliver(c, id)
    ensures OfferedAs(steps + [a], c, id) == OfferedAs(steps, c, id)
  {
    assert (steps + [a])[..|steps|] == steps;
  }

  /** A client that is only sent messages, or none, and whose objects and device stay as they are. */
  ghost predicate OnlySent(client: Client, now: Client, messages: seq<Message>) {
    && now.taken == client.taken && now.sends == client.sends && now.offers == client.offers
    && now.device == client.device
    && (now.reading == client.reading || now.reading.None?)
    && (now.connected ==> client.connected && now.queue == client.queue + messages)
    && forall id | HasOffer(now, id) :: HasOffer(client, id) && now.store[id] == client.store[id]
  }

  lemma QueueGrows(client: Client, now: Client, inbox: seq<Message>, n: nat, more: seq<Message>)
    requires QueueFollows(client, inbox, n) && now.taken == client.taken && now.sends == client.sends
    requires now.connected ==> client.connected && now.queue == client.queue + more
    ensures QueueFollows(now, inbox + more, n)
  {
    assert (inbox + more)[..n] == inbox[..n];
    assert (inbox + more)[n..] == inbox[n..] + more;
  }

  lemma ClientAfterSent(client: Client, now: Client, steps: seq<Step>, a: Step, c: ClientId)
    requires ClientFollows(client, steps, c) && !Concerns(a, c) && OnlySent(client, now, MessagesBy(steps, a, c))
    ensures ClientFollows(now, steps + [a], c)
  {
    FoldsKept(steps, a, c);
    QueueGrows(client, now, Inbox(steps, c), DeliveriesTo(steps, c), MessagesBy(steps, a, c));
    forall id | HasOffer(now, id) ensures OfferFollows(now, steps + [a], c, id) {
      assert OfferFollows(client, steps, c, id);
      OfferedKept(steps, a, c, id);
    }
  }

  lemma ClientAfterConnect(steps: seq<Step>, c: ClientId, joined: nat)
    ensures ClientFollows(NEW_CLIENT.(joined := joined), steps + [Connect(c)], c)
  {
    assert (steps + [Connect(c)])[..|steps|] == steps;
  }

  lemma ClientAfterGetDevice(w: World, steps: seq<Step>, c: ClientId, id: ObjectId)
    requires Enabled(w, GetDevice(c, id)) && ClientFollows(w.clients[c], steps, c) && w.clipboard == ClipboardAt(steps)
    ensures ClientFollows(DeviceMade(w.clients[c], id, w.clipboard), steps + [GetDevice(c, id)], c)
  {
    var client, a := w.clients[c], GetDevice(c, id);
    var now := DeviceMade(client, id, w.clipboard);
    assert (steps + [a])[..|steps|] == steps;
    assert Inbox(steps, c) + [] == Inbox(steps, c) && OffersTo(steps, c) + [] == OffersTo(steps, c);
    forall x | HasOffer(now, x) ensures OfferFollows(now, steps + [a], c, x) {
      assert OfferFollows(client, steps, c, x);
      OfferedKept(steps, a, c, x);
    }
  }

  /** An offer object made under an unused id stands for the selection offered. */
  lemma OffersAfterOffered(client: Client, now: Client, steps: seq<Step>, a: Step, c: ClientId, offer: Offer, id: ObjectId)
    requires forall x | HasOffer(client, x) :: OfferFollows(client, steps, c, x)
    requires now.store == Offered(client, offer, id).store && (a == OfferToDevice(c, id) || a == Deliver(c, id))
    requires OfferedAs(steps + [a], c, id) == Some(offer.selection)
    ensures forall x | HasOffer(now, x) :: OfferFollows(now, steps + [a], c, x)
  {
    forall x | HasOffer(now, x) ensures OfferFollows(now, steps + [a], c, x) {
      if x != id {
        assert OfferFollows(client, steps, c, x);
        OfferedKept(steps, a, c, x);
      }
    }
  }

  lemma ClientAfterOffer(w: World, steps: seq<Step>, c: ClientId, id: ObjectId)
    requires Enabled(w, OfferToDevice(c, id)) && ClientFollows(w.clients[c], steps, c)
    ensures ClientFollows(Next(w, OfferToDevice(c, id)).clients[c], steps + [OfferToDevice(c, id)], c)
  {
    var client, a := w.clients[c], OfferToDevice(c, id);
    var now := Next(w, a).clients[c];
    assert (steps + [a])[..|steps|] == steps;
    assert Inbox(steps, c) + [] == Inbox(steps, c);
    OffersAfterOffered(client, now, steps, a, c, client.reading.value, id);
  }

  /** Handling the head of the queue, whatever it is. */
  lemma QueueAfterHead(client: Client, now: Client, inbox: seq<Message>, n: nat)
    requires QueueFollows(client, inbox, n) && client.connected && client.queue != []
    requires now.taken == client.taken + if client.queue[0].Selected? then [client.queue[0].selection] else []
    requires now.sends == client.sends + SendsIn([client.queue[0]])
    requires now.connected ==> now.queue == client.queue[1..]
    ensures n < |inbox| && inbox[n] == client.queue[0] && QueueFollows(now, inbox, n + 1)
  {
    assert inbox[..n + 1] == inbox[..n] + [inbox[n]];
    SelectionsAppend(inbox[..n], inbox[n]);
    SendsAppend(inbox[..n], inbox[n]);
    assert [inbox[n]][1..] == [];
    assert SendsIn([inbox[n]]) == SendIn(inbox[n]) + [];
    assert inbox[n..][1..] == inbox[n + 1..];
  }

  /** A delivered selection is offered to the first device, unless that fails and ends the client. */
  lemma OffersAfterDelivered(client: Client, offerId: ObjectId)
    requires client.connected && client.queue != []
    ensures var now, head := Delivered(client, offerId), client.queue[0];
            && now.device == client.device
            && (now.reading == client.reading || now.reading.None?)
            && (if now.connected && head.Selected? && client.device.Some? then
                  && now.offers == client.offers + [Offer(client.device.value, head.selection)]
                  && now.store == Offered(client, Offer(client.device.value, head.selection), offerId).store
                else now.offers == client.offers && now.store == client.store)
  {
  }

  lemma FoldsAfterDeliver(steps: seq<Step>, c: ClientId, id: ObjectId)
    ensures var more := steps + [Deliver(c, id)];
            && DeliveriesTo(more, c) == DeliveriesTo(steps, c) + 1
            && Inbox(more, c) == Inbox(steps, c)
            && FirstDeviceOf(more, c) == FirstDeviceOf(steps, c)
            && LastRead(more, c) == LastRead(steps, c)
            && OffersTo(more, c) == OffersTo(steps, c) + OffersBy(steps, Deliver(c, id), c)
            && OfferedAs(more, c, id) == (if Head(steps, c).Some? && Head(steps, c).value.Selected?
                                          then Some(Head(steps, c).value.selection) else OfferedAs(steps, c, id))
  {
    assert (steps + [Deliver(c, id)])[..|steps|] == steps;
    assert Inbox(steps, c) + [] == Inbox(steps, c);
  }

  lemma StoreAfterDeliver(client: Client, steps: seq<Step>, c: ClientId, id: ObjectId)
    requires client.connected && client.queue != [] && id !in client.store
    requires forall x | HasOffer(client, x) :: OfferFollows(client, steps, c, x)
    requires Head(steps, c) == Some(client.queue[0])
    ensures var now := Delivered(client, id);
            forall x | HasOffer(now, x) :: OfferFollows(now, steps + [Deliver(c, id)], c, x)
  {
    var now, head, a := Delivered(client, id), client.queue[0], Deliver(c, id);
    OffersAfterDelivered(client, id);
    FoldsAfterDeliver(steps, c, id);
    if now.connected && head.Selected? && client.device.Some? {
      OffersAfterOffered(client, now, steps, a, c, Offer(client.device.value, head.selection), id);
    } else {
      forall x | HasOffer(now, x) ensures OfferFollows(now, steps + [a], c, x) {
        assert OfferFollows(client, steps, c, x);
        OfferedKept(steps, a, c, x);
      }
    }
  }

  lemma ClientAfterDeliver(w: World, steps: seq<Step>, c: ClientId, id: ObjectId)
    requires Enabled(w, Deliver(c, id)) && ClientFollows(w.clients[c], steps, c)
    ensures ClientFollows(Delivered(w.clients[c], id), steps + [Deliver(c, id)], c)
  {
    var client, now := w.clients[c], Delivered(w.clients[c], id);
    DeliveredMovesHead(client, id);
    QueueAfterHead(client, now, Inbox(steps, c), DeliveriesTo(steps, c));
    FoldsAfterDeliver(steps, c, id);
    OffersAfterDelivered(client, id);
    assert OffersTo(steps, c) + [] == OffersTo(steps, c);
    StoreAfterDeliver(client, steps, c, id);
  }

  // ---------------------------------------------------------------------------------------------
  // Every step
  // ---------------------------------------------------------------------------------------------

  lemma UntouchedIsOnlySent(client: Client)
    ensures OnlySent(client, client, [])
  {
    assert client.queue + [] == client.queue;
  }

  lemma SentByBroadcast(w: World, steps: seq<Step>, c: ClientId, d: ClientId)
    requires StoresFollow(w, steps) && Enabled(w, Broadcast(c)) && d in w.clients
    ensures OnlySent(w.clients[d], Next(w, Broadcast(c)).clients[d], MessagesBy(steps, Broadcast(c), d))
  {
    assert LastStored(steps, c) == Some(w.storing[c]);
  }

  /** The request goes to the owner of the offered source, and names what the client was offered. */
  lemma SentByReceive(w: World, steps: seq<Step>, c: ClientId, id: ObjectId, mime: string, d: ClientId)
    requires StoresFollow(w, steps) && ClientsFollow(w, steps) && Enabled(w, Receive(c, id, mime)) && d in w.clients
    ensures var a := Receive(c, id, mime); OnlySent(w.clients[d], Next(w, a).clients[d], MessagesBy(steps, a, d))
  {
    assert ClientFollows(w.clients[c], steps, c) && HasOffer(w.clients[c], id);
    assert OfferFollows(w.clients[c], steps, c, id);
    UntouchedIsOnlySent(w.clients[d]);
  }

  lemma SentByOthers(w: World, steps: seq<Step>, a: Step, d: ClientId)
    requires Enabled(w, a) && d in w.clients && !Concerns(a, d) && !a.Broadcast? && !a.Receive?
    ensures OnlySent(w.clients[d], Next(w, a).clients[d], MessagesBy(steps, a, d))
  {
    UntouchedIsOnlySent(w.clients[d]);
  }

  lemma ClientAfterOwnStep(w: World, steps: seq<Step>, a: Step, d: ClientId)
    requires StoresFollow(w, steps) && ClientsFollow(w, steps) && Enabled(w, a) && Concerns(a, d)
    ensures ClientFollows(Next(w, a).clients[d], steps + [a], d)
  {
    match a
    case Connect(_) => ClientAfterConnect(steps, d, |w.log|);
    case GetDevice(_, id) => ClientAfterGetDevice(w, steps, d, id);
    case OfferToDevice(_, id) => ClientAfterOffer(w, steps, d, id);
    case Deliver(_, id) => ClientAfterDeliver(w, steps, d, id);
  }

  lemma SentByStep(w: World, steps: seq<Step>, a: Step, d: ClientId)
    requires StoresFollow(w, steps) && ClientsFollow(w, steps) && Enabled(w, a) && d in w.clients && !Concerns(a, d)
    ensures OnlySent(w.clients[d], Next(w, a).clients[d], MessagesBy(steps, a, d))
  {
    match a
    case Broadcast(c) => SentByBroadcast(w, steps, c, d);
    case Receive(c, id, mime) => SentByReceive(w, steps, c, id, mime, d);
    case _ => SentByOthers(w, steps, a, d);
  }

  lemma ClientsAfterStep(w: World, steps: seq<Step>, a: Step)
    requires StoresFollow(w, steps) && ClientsFollow(w, steps) && Enabled(w, a)
    ensures ClientsFollow(Next(w, a), steps + [a])
  {
    forall d | d in Next(w, a).clients ensures ClientFollows(Next(w, a).clients[d], steps + [a], d) {
      if Concerns(a, d) {
        ClientAfterOwnStep(w, steps, a, d);
      } else {
        SentByStep(w, steps, a, d);
        ClientAfterSent(w.clients[d], Next(w, a).clients[d], steps, a, d);
      }
    }
  }

  ghost predicate AllFollows(w: World, steps: seq<Step>) {
    SourcesFollow(w, steps) && StoresFollow(w, steps) && ClientsFollow(w, steps)
  }

  lemma AfterStep(w: World, steps: seq<Step>, a: Step, v: World, more: seq<Step>)
    requires AllFollows(w, steps) && Enabled(w, a) && v == Next(w, a) && more == steps + [a]
    ensures AllFollows(v, more)
  {
    SourcesAfterStep(w, steps, a);
    StoresAfterStep(w, steps, a);
    ClientsAfterStep(w, steps, a);
  }

  lemma StartFollows()
    ensures AllFollows(START, [])
  {
  }

  lemma {:induction false} EveryRunFollows(w: World, steps: seq<Step>)
    requires Reachable(w, steps)
    ensures AllFollows(w, steps)
    decreases |steps|
  {
    if steps == [] {
      StartFollows();
    } else {
      var last := |steps| - 1;
      var v :| Reachable(v, steps[..last]) && Enabled(v, steps[last]) && w == Next(v, steps[last]);
      EveryRunFollows(v, steps[..last]);
      assert steps[..last] + [steps[last]] == steps;
      AfterStep(v, steps[..last], steps[last], w, steps);
    }
  }

  // ---------------------------------------------------------------------------------------------
  // What holds in every run
  // ---------------------------------------------------------------------------------------------

  /** A request to select a source stores the mime types offered on it since its creation, in order, with
      the client as the owner. */
  lemma EachStoreStoresItsList(w: World, steps: seq<Step>, c: ClientId, id: ObjectId)
    requires Reachable(w, steps + [StoreSelection(c, id)])
    ensures w.clipboard.Some? && c in w.storing && w.storing[c] == w.clipboard.value
    ensures w.clipboard.value.mimes == MimesAt(steps, c, id) && w.clipboard.value.owner == c
    ensures w.clipboard.value.source == SourceRef(c, id, SerialAt(steps, c, id))
  {
    var more := steps + [StoreSelection(c, id)];
    assert more[..|more| - 1] == steps;
    var v :| Reachable(v, steps) && Enabled(v, StoreSelection(c, id)) && w == Next(v, StoreSelection(c, id));
    EveryRunFollows(w, more);
  }

  /** What is stored, in flight and broadcast is what the requests stored and broadcast. */
  lemma StateIsAsRequested(w: World, steps: seq<Step>)
    requires Reachable(w, steps)
    ensures w.clipboard == ClipboardAt(steps) && w.log == LogAt(steps)
    ensures forall c | c in w.storing :: LastStored(steps, c) == Some(w.storing[c])
  {
    EveryRunFollows(w, steps);
  }

  /** Some request stored exactly this selection: its source's mime types are those offered by then. */
  ghost predicate WasStored(steps: seq<Step>, s: Selection) {
    exists k :: 0 <= k < |steps| && StoredBy(steps, k, s)
  }

  predicate StoredBy(steps: seq<Step>, k: nat, s: Selection)
    requires k < |steps|
  {
    steps[k].StoreSelection? && s == SelectionAt(steps[..k], steps[k].c, steps[k].id)
  }

  lemma WasStoredBefore(steps: seq<Step>, s: Selection)
    requires steps != [] && WasStored(steps[..|steps| - 1], s)
    ensures WasStored(steps, s)
  {
    var before := steps[..|steps| - 1];
    var k :| 0 <= k < |before| && StoredBy(before, k, s);
    assert before[..k] == steps[..k];
    assert StoredBy(steps, k, s);
  }

  lemma {:induction false} LastStoredWas(steps: seq<Step>, c: ClientId)
    ensures LastStored(steps, c).Some? ==> WasStored(steps, LastStored(steps, c).value)
    decreases |steps|
  {
    if steps != [] && LastStored(steps, c).Some? {
      var before, a := steps[..|steps| - 1], steps[|steps| - 1];
      if a.StoreSelection? && a.c == c {
        assert StoredBy(steps, |steps| - 1, LastStored(steps, c).value);
      } else {
        LastStoredWas(before, c);
        WasStoredBefore(steps, LastStored(steps, c).value);
      }
    }
  }

  lemma {:induction false} ClipboardWas(steps: seq<Step>)
    ensures ClipboardAt(steps).Some? ==> WasStored(steps, ClipboardAt(steps).value)
    decreases |steps|
  {
    if steps != [] && ClipboardAt(steps).Some? {
      if steps[|steps| - 1].StoreSelection? {
        assert StoredBy(steps, |steps| - 1, ClipboardAt(steps).value);
      } else {
        ClipboardWas(steps[..|steps| - 1]);
        WasStoredBefore(steps, ClipboardAt(steps).value);
      }
    }
  }

  lemma {:induction false} LogWas(steps: seq<Step>, s: Selection)
    requires s in LogAt(steps)
    ensures WasStored(steps, s)
    decreases |steps|
  {
    var before, a := steps[..|steps| - 1], steps[|steps| - 1];
    if s in LogAt(before) {
      LogWas(before, s);
    } else {
      LastStoredWas(before, a.c);
    }
    WasStoredBefore(steps, s);
  }

  lemma {:induction false} LastReadWas(steps: seq<Step>, c: ClientId)
    ensures LastRead(steps, c).Some? ==> WasStored(steps, LastRead(steps, c).value.selection)
    decreases |steps|
  {
    if steps != [] && LastRead(steps, c).Some? {
      var before, a := steps[..|steps| - 1], steps[|steps| - 1];
      if a.GetDevice? && a.c == c {
        ClipboardWas(before);
      } else {
        LastReadWas(before, c);
      }
      WasStoredBefore(steps, LastRead(steps, c).value.selection);
    }
  }

  lemma {:induction false} InboxWas(steps: seq<Step>, c: ClientId, s: Selection)
    requires Selected(s) in Inbox(steps, c)
    ensures WasStored(steps, s)
    decreases |steps|
  {
    var before, a := steps[..|steps| - 1], steps[|steps| - 1];
    if Selected(s) in Inbox(before, c) {
      InboxWas(before, c, s);
    } else {
      assert Selected(s) in MessagesBy(before, a, c);
      LastStoredWas(before, a.c);
    }
    WasStoredBefore(steps, s);
  }

  lemma {:induction false} OffersWere(steps: seq<Step>, c: ClientId, offer: Offer)
    requires offer in OffersTo(steps, c)
    ensures WasStored(steps, offer.selection)
    decreases |steps|
  {
    var before, a := steps[..|steps| - 1], steps[|steps| - 1];
    if offer in OffersTo(before, c) {
      OffersWere(before, c, offer);
    } else if a.OfferToDevice? {
      LastReadWas(before, c);
    } else {
      assert Selected(offer.selection) == Head(before, c).value;
      InboxWas(before, c, offer.selection);
    }
    WasStoredBefore(steps, offer.selection);
  }

  /** Where a selection can be, apart from the clients. */
  predicate IsShared(w: World, s: Selection) {
    w.clipboard == Some(s) || s in w.storing.Values || s in w.log
  }

  /** Where a client can have a selection: about to be offered, offered, or queued. */
  predicate IsHeld(client: Client, s: Selection) {
    || (client.reading.Some? && client.reading.value.selection == s)
    || (client.connected && Selected(s) in client.queue)
    || exists offer | offer in client.offers :: offer.selection == s
  }

  /** Wherever a selection got to, it carries the mime types its source had when it was stored. */
  lemma SelectionsCarryTheirLists(w: World, steps: seq<Step>, s: Selection)
    requires Reachable(w, steps) && (IsShared(w, s) || exists c | c in w.clients :: IsHeld(w.clients[c], s))
    ensures WasStored(steps, s)
  {
    EveryRunFollows(w, steps);
    if IsShared(w, s) {
      SharedWasStored(w, steps, s);
    } else {
      var c :| c in w.clients && IsHeld(w.clients[c], s);
      HeldWasStored(w.clients[c], steps, c, s);
    }
  }

  lemma SharedWasStored(w: World, steps: seq<Step>, s: Selection)
    requires StoresFollow(w, steps) && IsShared(w, s)
    ensures WasStored(steps, s)
  {
    if w.clipboard == Some(s) {
      ClipboardWas(steps);
    } else if s in w.log {
      LogWas(steps, s);
    } else {
      var c :| c in w.storing && w.storing[c] == s;
      LastStoredWas(steps, c);
    }
  }

  lemma HeldWasStored(client: Client, steps: seq<Step>, c: ClientId, s: Selection)
    requires ClientFollows(client, steps, c) && IsHeld(client, s)
    ensures WasStored(steps, s)
  {
    if client.reading.Some? && client.reading.value.selection == s {
      LastReadWas(steps, c);
    } else if client.connected && Selected(s) in client.queue {
      assert Selected(s) in Inbox(steps, c);
      InboxWas(steps, c, s);
    } else {
      var offer :| offer in client.offers && offer.selection == s;
      assert offer in OffersTo(steps, c);
      OffersWere(steps, c, offer);
    }
  }

  /** The requests to receive what client `c` offers, as its `send` events: each with the mime type asked
      for and the source that was offered. */
  function AskedOf(steps: seq<Step>, c: ClientId): seq<SendEvent> {
    if steps == [] then []
    else
      var before, a := steps[..|steps| - 1], steps[|steps| - 1];
      if a == Connect(c) then []
      else if a.Receive? && OfferedAs(before, a.c, a.id).Some? && OfferedAs(before, a.c, a.id).value.owner == c then
        var source := OfferedAs(before, a.c, a.id).value.source;
        AskedOf(before, c) + [SendEvent(source.id, source, a.mime, ReceivesIn(before))]
      else AskedOf(before, c)
  }

  lemma {:induction false} InboxHoldsWhatWasAsked(steps: seq<Step>, c: ClientId)
    ensures SendsIn(Inbox(steps, c)) == AskedOf(steps, c)
    decreases |steps|
  {
    if steps != [] {
      var before, a := steps[..|steps| - 1], steps[|steps| - 1];
      InboxHoldsWhatWasAsked(before, c);
      var more := MessagesBy(before, a, c);
      if more == [] {
        assert Inbox(before, c) + more == Inbox(before, c);
      } else {
        SendsAppend(Inbox(before, c), more[0]);
        assert AskedOf(before, c) + [] == AskedOf(before, c);
      }
    }
  }

  lemma {:induction false} SendsConcat(q: seq<Message>, r: seq<Message>)
    ensures SendsIn(q + r) == SendsIn(q) + SendsIn(r)
  {
    if q == [] {
      assert q + r == r;
    } else {
      assert (q + r)[1..] == q[1..] + r;
      SendsConcat(q[1..], r);
      assert SendIn(q[0]) + (SendsIn(q[1..]) + SendsIn(r)) == SendIn(q[0]) + SendsIn(q[1..]) + SendsIn(r);
    }
  }

  lemma SendsAreInOrder(client: Client, inbox: seq<Message>, n: nat)
    requires QueueFollows(client, inbox, n)
    ensures client.sends <= SendsIn(inbox)
    ensures client.connected ==> client.sends + SendsIn(client.queue) == SendsIn(inbox)
  {
    SendsConcat(inbox[..n], inbox[n..]);
    assert inbox[..n] + inbox[n..] == inbox;
  }

  /** Each request to receive is sent on once, in order, with the mime type it named, to the client whose
      source was offered; a client that is gone was sent the first of them. */
  lemma EveryReceiveAsksForItsType(w: World, steps: seq<Step>, c: ClientId)
    requires Reachable(w, steps) && c in w.clients
    ensures w.clients[c].sends <= AskedOf(steps, c)
    ensures w.clients[c].connected ==> w.clients[c].sends + SendsIn(w.clients[c].queue) == AskedOf(steps, c)
  {
    EveryRunFollows(w, steps);
    assert ClientFollows(w.clients[c], steps, c);
    InboxHoldsWhatWasAsked(steps, c);
    SendsAreInOrder(w.clients[c], Inbox(steps, c), DeliveriesTo(steps, c));
  }

  /** What a client was offered is what it read for new devices and, for its first device, what was
      delivered, in order; only a client that is gone may have missed the end of it. */
  lemma OffersAreAsRequested(w: World, steps: seq<Step>, c: ClientId)
    requires Reachable(w, steps) && c in w.clients
    ensures w.clients[c].offers <= OffersTo(steps, c)
    ensures w.clients[c].connected ==> w.clients[c].offers == OffersTo(steps, c)
    ensures DeliveriesTo(steps, c) <= |Inbox(steps, c)|
    ensures w.clients[c].connected ==> w.clients[c].queue == Inbox(steps, c)[DeliveriesTo(steps, c)..]
  {
    EveryRunFollows(w, steps);
    assert ClientFollows(w.clients[c], steps, c);
  }
}
