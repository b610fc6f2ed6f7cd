/** The two loops of the clipboard: the broadcast over the registered sinks, and the events that
    announce an offer. `Clipboard` interleaves them with everything else. */
module ClipboardCalls {
  import opened Wrappers
  import opened Clipboard

  class DataSource {
    const source: SourceRef
    var mimes: seq<string>

    constructor (source: SourceRef)
      ensures this.source == source && mimes == []
    {
      this.source, mimes := source, [];
    }

    method Offer(mime: string)
      modifies this
      ensures mimes == old(mimes) + [mime]
    {
      mimes := mimes + [mime];
    }
  }

  /** `queues` holds the queues of the clients that are still there; sending to another sink fails. */
  class Server {
    var sinks: seq<ClientId>
    var queues: map<ClientId, seq<Message>>
    var clipboard: Option<Selection>

    ghost predicate Valid()
      reads this
    {
      forall i, j | 0 <= i < j < |sinks| :: sinks[i] != sinks[j]
    }

    constructor ()
      ensures Valid() && sinks == [] && queues == map[] && clipboard == None
    {
      sinks, queues, clipboard := [], map[], None;
    }

    method RegisterClient(c: ClientId)
      requires Valid() && c !in sinks
      modifies this
      ensures Valid() && sinks == old(sinks) + [c] && queues == old(queues)[c := []] && clipboard == old(clipboard)
    {
      sinks := sinks + [c];
      queues := queues[c := []];
    }

    /** With no source, only clears what is stored. Otherwise the selection has the mime types offered on
        the source by now, and every client that is registered and still there gets it exactly once, behind
        what it already has queued. */
    method SetSelection(source: DataSource?, owner: ClientId, call: nat)
      requires Valid()
      modifies this
      ensures Valid() && sinks == old(sinks) && queues.Keys == old(queues.Keys)
      ensures source == null ==> clipboard == None && queues == old(queues)
      ensures source != null ==>
                var selection := Selection(source.source, source.mimes, owner, call);
                && clipboard == Some(selection)
                && forall c | c in queues ::
                     queues[c] == old(queues)[c] + if c in sinks then [Selected(selection)] else []
    {
      if source == null {
        clipboard := None;
        return;
      }
      var selection := Selection(source.source, source.mimes, owner, call);
      clipboard := Some(selection);
      var i := 0;
      while i < |sinks|
        invariant 0 <= i <= |sinks| && Valid() && sinks == old(sinks) && clipboard == Some(selection)
        invariant queues.Keys == old(queues.Keys)
        invariant forall c | c in queues ::
                    queues[c] == old(queues)[c] + if c in sinks[..i] then [Selected(selection)] else []
      {
        var sink := sinks[i];
        assert sink !in sinks[..i];
        if sink in queues {
          queues := queues[sink := queues[sink] + [Selected(selection)]];
        }
        i := i + 1;
      }
      assert sinks[..i] == sinks;
    }
  }

  datatype Event = DataOffer(device: ObjectId, offer: ObjectId) | OfferMime(offer: ObjectId, mime: string)
                 | SelectionIs(device: ObjectId, offer: ObjectId)

  function MimeEvents(offer: ObjectId, mimes: seq<string>): seq<Event> {
    seq(|mimes|, i requires 0 <= i < |mimes| => OfferMime(offer, mimes[i]))
  }

  class Connection {
    var store: map<ObjectId, Object>
    var events: seq<Event>

    constructor (store: map<ObjectId, Object>)
      ensures this.store == store && events == []
    {
      this.store, events := store, [];
    }

    /** A device that is gone is an error before anything is sent. Otherwise the new offer is announced,
        then each mime type in order, then the selection. */
    method OfferSelection(device: ObjectId, offer: ObjectId, selection: Selection) returns (ok: bool)
      requires offer !in store
      modifies this
      ensures ok <==> device in old(store) && old(store)[device].DeviceObject?
      ensures !ok ==> store == old(store) && events == old(events)
      ensures ok ==>
                && store == old(store)[offer := OfferObject(selection.source, selection.owner)]
                && events == old(events) + [DataOffer(device, offer)] + MimeEvents(offer, selection.mimes)
                             + [SelectionIs(device, offer)]
    {
      if device !in store || !store[device].DeviceObject? {
        return false;
      }
      store := store[offer := OfferObject(selection.source, selection.owner)];
      events := events + [DataOffer(device, offer)];
      var i := 0;
      while i < |selection.mimes|
        invariant 0 <= i <= |selection.mimes|
        invariant store == old(store)[offer := OfferObject(selection.source, selection.owner)]
        invariant events == old(events) + [DataOffer(device, offer)] + MimeEvents(offer, selection.mimes)[..i]
      {
        events := events + [OfferMime(offer, selection.mimes[i])];
        i := i + 1;
      }
      events := events + [SelectionIs(device, offer)];
      ok := true;
    }
  }
}
