/** The keyboard's event stream, and the state a client rebuilds from it. */
module Keyboard {
  import opened Wrappers
  import opened NativeBytes

  type ObjectId = nat

  /** `allocation` is the surface's identity; `id` may be used again after the surface is gone. */
  datatype Surface = Surface(allocation: nat, id: ObjectId)

  type Key = k: nat | k < 0x1_0000_0000

  datatype Modifiers = Modifiers(depressed: nat, latched: nat, locked: nat, group: nat)

  datatype Event =
    | KeymapEvent(keymap: nat)
    | Enter(surface: ObjectId, pressedKeys: seq<Byte>)
    | Leave(surface: ObjectId)
    | KeyEvent(key: Key, pressed: bool)
    | ModifiersEvent(modifiers: Modifiers)

  /** One key of the panel item. `keymap` is what the store answers: the keymap's id, if it is known,
      and whether its file can be had. */
  datatype KeyMessage = KeyMessage(
    surface: Surface,
    keymap: Option<nat>,
    hasFile: bool,
    key: Key,
    pressed: bool,
    modifiers: Modifiers)

  // ---------------------------------------------------------------------------------------------
  // The client's side
  // ---------------------------------------------------------------------------------------------

  datatype Peer = Peer(keymap: Option<nat>, focus: Option<ObjectId>, keys: set<nat>, modifiers: Modifiers)

  const NO_MODIFIERS := Modifiers(0, 0, 0, 0)

  const FRESH_PEER := Peer(None, None, {}, NO_MODIFIERS)

  function Update(keys: set<nat>, key: nat, pressed: bool): set<nat> {
    if pressed then keys + {key} else keys - {key}
  }

  /** `enter` sets the pressed keys, `leave` clears them, `key` updates them, and `modifiers` sets the
      modifiers. */
  function Replayed(e: Endian, p: Peer, event: Event): Peer {
    match event
    case KeymapEvent(keymap) => p.(keymap := Some(keymap))
    case Enter(surface, bytes) => p.(focus := Some(surface), keys := set k | k in FromArray(e, bytes, 4))
    case Leave(_) => p.(focus := None, keys := {})
    case KeyEvent(key, pressed) => p.(keys := Update(p.keys, key, pressed))
    case ModifiersEvent(modifiers) => p.(modifiers := modifiers)
  }

  function Replay(e: Endian, events: seq<Event>): Peer {
    if events == [] then FRESH_PEER
    else Replayed(e, Replay(e, events[..|events| - 1]), events[|events| - 1])
  }

  lemma ReplayAppend(e: Endian, events: seq<Event>, event: Event)
    ensures Replay(e, events + [event]) == Replayed(e, Replay(e, events), event)
  {
    assert (events + [event])[..|events|] == events;
  }

  /** The array of `enter` decodes to the keys that went into it. */
  lemma EnterKeysRoundTrip(e: Endian, keys: seq<Key>)
    ensures forall k: nat :: k in FromArray(e, ToArray(e, keys, 4), 4) <==> k in keys
  {
    ArrayRoundTrip(e, keys, 4);
    PowersOf256();
    var back := FromArray(e, ToArray(e, keys, 4), 4);
    forall i | 0 <= i < |keys| ensures back[i] == keys[i] {
      assert keys[i] % 0x1_0000_0000 == keys[i];
    }
    assert back == keys;
  }

  /** What a well-formed stream may not do at position `i`: leave a surface that is not focused, or send
      a key without a focus and a keymap. */
  ghost predicate WellPlaced(e: Endian, events: seq<Event>, i: nat)
    requires i < |events|
  {
    var before := Replay(e, events[..i]);
    match events[i]
    case Leave(surface) => before.focus == Some(surface)
    case KeyEvent(_, _) => before.focus.Some? && before.keymap.Some?
    case _ => true
  }

  ghost predicate WellFormed(e: Endian, events: seq<Event>) {
    forall i | 0 <= i < |events| :: WellPlaced(e, events, i)
  }

  lemma WellFormedAppend(e: Endian, events: seq<Event>, event: Event)
    requires WellFormed(e, events)
    requires var before := Replay(e, events);
             match event
             case Leave(surface) => before.focus == Some(surface)
             case KeyEvent(_, _) => before.focus.Some? && before.keymap.Some?
             case _ => true
    ensures WellFormed(e, events + [event])
  {
    var more := events + [event];
    assert more[..|events|] == events;
    forall i | 0 <= i < |more| ensures WellPlaced(e, more, i) {
      if i < |events| {
        assert WellPlaced(e, events, i) && more[..i] == events[..i];
      }
    }
  }

  /** A keymap is sent when it is not the one in effect. */
  function KeymapPart(current: Option<nat>, m: KeyMessage): seq<Event>
    requires m.keymap.Some?
  {
    if current == m.keymap then [] else [KeymapEvent(m.keymap.value)]
  }

  function KeyPart(m: KeyMessage): seq<Event> {
    [KeyEvent(m.key, m.pressed), ModifiersEvent(m.modifiers)]
  }

  /** The pressed-key table is kept by object id, so a new surface with an old id inherits its keys. */
  function WithKey(table: map<ObjectId, set<Key>>, m: KeyMessage): map<ObjectId, set<Key>> {
    var keys := if m.surface.id in table then table[m.surface.id] else {};
    table[m.surface.id := Update(keys, m.key, m.pressed)]
  }

  /** A change of focus: the surface that had it is left if it is still there. */
  function FocusPart(was: Option<Surface>, now: Surface, modifiers: Modifiers, oldAlive: bool, bytes: seq<Byte>): seq<Event>
  {
    if was == Some(now) then [] else
    (if was.Some? && oldAlive then [Leave(was.value.id)] else [])
      + [Enter(now.id, bytes), ModifiersEvent(modifiers.(group := 0))]
  }

  function KeysFor(table: map<ObjectId, set<Key>>, id: ObjectId): set<Key> {
    if id in table then table[id] else {}
  }

  /** What the client holds when it gets the key of message `m`. A surface that had the focus has the keys
      and modifiers it was told of; one that is just entered is told the keys with this one already
      counted, and the modifiers but for their group. */
  function PeerAtKey(table: map<ObjectId, set<Key>>, was: Option<Surface>, modifiers: Modifiers, m: KeyMessage): Peer {
    var keys := KeysFor(table, m.surface.id);
    if was == Some(m.surface) then Peer(m.keymap, Some(m.surface.id), keys, modifiers)
    else Peer(m.keymap, Some(m.surface.id), Update(keys, m.key, m.pressed), m.modifiers.(group := 0))
  }

  // ---------------------------------------------------------------------------------------------
  // The server's side
  // ---------------------------------------------------------------------------------------------

  class Keyboard {
    const endian: Endian
    var focused: Option<Surface>               // a weak reference: the surface may be gone
    var pressedKeys: map<ObjectId, set<Key>>
    var currentKeymap: Option<nat>
    var events: seq<Event>

    /** The client's view: its keymap, its focus and its pressed keys. */
    ghost predicate Simulates()
      reads this
    {
      var p := Replay(endian, events);
      && p.keymap == currentKeymap
      && p.focus == (if focused.Some? then Some(focused.value.id) else None)
      && p.keys == (if focused.Some? && focused.value.id in pressedKeys then pressedKeys[focused.value.id] else {})
      && WellFormed(endian, events)
    }

    constructor (endian: Endian)
      ensures this.endian == endian && Simulates() && events == [] && focused.None? && pressedKeys == map[]
    {
      this.endian := endian;
      focused, pressedKeys, currentKeymap, events := None, map[], None, [];
    }

    method Send(event: Event)
      requires WellFormed(endian, events)
      requires var before := Replay(endian, events);
               match event
               case Leave(surface) => before.focus == Some(surface)
               case KeyEvent(_, _) => before.focus.Some? && before.keymap.Some?
               case _ => true
      modifies this`events
      ensures events == old(events) + [event] && WellFormed(endian, events)
      ensures Replay(endian, events) == Replayed(endian, Replay(endian, old(events)), event)
    {
      ReplayAppend(endian, events, event);
      WellFormedAppend(endian, events, event);
      events := events + [event];
    }

    /** The keys of the set, in the order its iterator happens to give. */
    method Enumerate(keys: set<Key>) returns (order: seq<Key>)
      ensures forall k: nat :: k in order <==> k in keys
    {
      order := [];
      var rest := keys;
      while rest != {}
        invariant rest <= keys && forall k: nat :: k in order <==> k in keys && k !in rest
        decreases rest
      {
        var k :| k in rest;
        rest := rest - {k};
        order := order + [k];
      }
    }

    method UpdateKeymap(m: KeyMessage) returns (ok: bool)
      requires Simulates()
      modifies this`currentKeymap, this`events
      ensures Simulates()
      ensures !ok <==> m.keymap.None? || (m.keymap != old(currentKeymap) && !m.hasFile)
      ensures !ok ==> events == old(events) && currentKeymap == old(currentKeymap)
      ensures ok ==> currentKeymap == m.keymap
      ensures ok ==> events == old(events) + KeymapPart(old(currentKeymap), m)
      ensures Replay(endian, events).modifiers == Replay(endian, old(events)).modifiers
    {
      if m.keymap.None? {
        return false;
      }
      if currentKeymap != m.keymap {
        if !m.hasFile {
          return false;
        }
        Send(KeymapEvent(m.keymap.value));
        currentKeymap := m.keymap;
      }
      ok := true;
    }

    /** Nothing is sent, and nothing changes, when the keymap is unknown or is new and has no file.
        `oldAlive` says whether the focused surface can still be upgraded. */
    method HandleKeyboardKey(m: KeyMessage, oldAlive: bool) returns (ok: bool)
      requires Simulates()
      modifies this
      ensures Simulates()
      ensures !ok <==> m.keymap.None? || (m.keymap != old(currentKeymap) && !m.hasFile)
      ensures var dropped := m.keymap.None? || (m.keymap != old(currentKeymap) && !m.hasFile);
              && (dropped ==>
                    && events == old(events) && focused == old(focused)
                    && pressedKeys == old(pressedKeys) && currentKeymap == old(currentKeymap))
              && (!dropped ==>
                    && focused == Some(m.surface) && currentKeymap == m.keymap
                    && pressedKeys == WithKey(old(pressedKeys), m)
                    && KeySent(m, PeerAtKey(old(pressedKeys), old(focused), Replay(endian, old(events)).modifiers, m))
                    && exists bytes ::
                         events == old(events) + KeymapPart(old(currentKeymap), m)
                           + FocusPart(old(focused), m.surface, m.modifiers, oldAlive, bytes) + KeyPart(m))
    {
      ok := UpdateKeymap(m);
      if ok {
        DeliverKey(m, oldAlive);
      }
    }

    method DeliverKey(m: KeyMessage, oldAlive: bool)
      requires Simulates() && m.keymap.Some? && currentKeymap == m.keymap
      modifies this
      ensures Simulates() && focused == Some(m.surface) && currentKeymap == m.keymap
      ensures pressedKeys == WithKey(old(pressedKeys), m)
      ensures KeySent(m, PeerAtKey(old(pressedKeys), old(focused), Replay(endian, old(events)).modifiers, m))
      ensures exists bytes ::
                events == old(events) + FocusPart(old(focused), m.surface, m.modifiers, oldAlive, bytes) + KeyPart(m)
    {
      pressedKeys := WithKey(pressedKeys, m);
      ghost var bytes: seq<Byte> := [];
      if focused != Some(m.surface) {
        Refocus(m.surface, pressedKeys[m.surface.id], m.modifiers, oldAlive);
        bytes :| events == old(events) + FocusPart(old(focused), m.surface, m.modifiers, oldAlive, bytes);
      } else {
        assert events == old(events) + FocusPart(old(focused), m.surface, m.modifiers, oldAlive, bytes);
      }
      ghost var before := events;
      SendKey(m);
      assert events[..|before|] == before;
    }

    /** The client agrees about the focus and the keymap, if not yet about the pressed keys. */
    ghost predicate Attentive()
      reads this
    {
      var p := Replay(endian, events);
      && WellFormed(endian, events) && p.keymap == currentKeymap
      && p.focus == (if focused.Some? then Some(focused.value.id) else None)
    }

    method Refocus(surface: Surface, keys: set<Key>, modifiers: Modifiers, oldAlive: bool)
      requires Attentive() && focused != Some(surface)
      modifies this`focused, this`events
      ensures Attentive() && focused == Some(surface)
      ensures Replay(endian, events) == Peer(currentKeymap, Some(surface.id), keys, modifiers.(group := 0))
      ensures exists bytes :: events == old(events) + FocusPart(old(focused), surface, modifiers, oldAlive, bytes)
    {
      if focused.Some? && oldAlive {
        Send(Leave(focused.value.id));
      }
      var order := Enumerate(keys);
      EnterKeysRoundTrip(endian, order);
      var bytes := ToArray(endian, order, 4);
      Send(Enter(surface.id, bytes));
      Send(ModifiersEvent(modifiers.(group := 0)));
      focused := Some(surface);
      assert events == old(events) + FocusPart(old(focused), surface, modifiers, oldAlive, bytes);
    }

    method SendKey(m: KeyMessage)
      requires Attentive() && focused == Some(m.surface) && currentKeymap == m.keymap && m.keymap.Some?
      modifies this`events
      ensures Attentive()
      ensures Replay(endian, events).keys == Update(Replay(endian, old(events)).keys, m.key, m.pressed)
      ensures events == old(events) + KeyPart(m)
      ensures Replay(endian, events).modifiers == m.modifiers
    {
      Send(KeyEvent(m.key, m.pressed));
      Send(ModifiersEvent(m.modifiers));
    }

    /** The stream ends in the message's key, sent to a client that holds `held`, which then holds the
        message's modifiers. */
    ghost predicate KeySent(m: KeyMessage, held: Peer)
      reads this
    {
      var k := |events| - 2;
      && 0 <= k && events[k] == KeyEvent(m.key, m.pressed) && !events[k + 1].KeyEvent?
      && Replay(endian, events[..k]) == held
      && Replay(endian, events).modifiers == m.modifiers
    }

    method Reset()
      requires Simulates()
      modifies this`events
      ensures Simulates()
      ensures events == old(events) + if currentKeymap.None? then [] else [ModifiersEvent(NO_MODIFIERS)]
      ensures Replay(endian, events).modifiers
           == if currentKeymap.None? then Replay(endian, old(events)).modifiers else NO_MODIFIERS
    {
      if currentKeymap.None? {
        return;
      }
      Send(ModifiersEvent(NO_MODIFIERS));
    }
  }

  // ---------------------------------------------------------------------------------------------
  // Whole runs
  // ---------------------------------------------------------------------------------------------

  datatype Request = KeyRequest(message: KeyMessage, oldAlive: bool) | ResetRequest

  /** The server's pressed-key table after some requests, said without the event stream. */
  function Pressed(requests: seq<Request>): map<ObjectId, set<Key>> {
    if requests == [] then map[]
    else
      var table := Pressed(requests[..|requests| - 1]);
      var last := requests[|requests| - 1];
      if last.ResetRequest? || Ignored(requests[..|requests| - 1], last.message) then table
      else WithKey(table, last.message)
  }

  function KeymapAfter(requests: seq<Request>): Option<nat>
    decreases |requests|, 0
  {
    if requests == [] then None
    else
      var last := requests[|requests| - 1];
      if last.ResetRequest? || Ignored(requests[..|requests| - 1], last.message) then KeymapAfter(requests[..|requests| - 1])
      else last.message.keymap
  }

  predicate Ignored(before: seq<Request>, m: KeyMessage)
    decreases |before|, 1
  {
    m.keymap.None? || (m.keymap != KeymapAfter(before) && !m.hasFile)
  }

  /** The surface of the last key that was not ignored. */
  function Focus(requests: seq<Request>): Option<Surface> {
    if requests == [] then None
    else
      var last := requests[|requests| - 1];
      if last.ResetRequest? || Ignored(requests[..|requests| - 1], last.message) then Focus(requests[..|requests| - 1])
      else Some(last.message.surface)
  }

  /** The modifiers of the last key that was not ignored, or none after a reset. */
  function ModifiersAfter(requests: seq<Request>): Modifiers {
    if requests == [] then NO_MODIFIERS
    else
      var before, last := requests[..|requests| - 1], requests[|requests| - 1];
      match last
      case ResetRequest => if KeymapAfter(before).None? then ModifiersAfter(before) else NO_MODIFIERS
      case KeyRequest(m, _) => if Ignored(before, m) then ModifiersAfter(before) else m.modifiers
  }

  /** A change of keymap or of focus that the client is told of. */
  datatype Change = NewKeymap(keymap: nat) | Entered(surface: ObjectId) | Left(surface: ObjectId)

  function ChangeIn(event: Event): seq<Change> {
    match event
    case KeymapEvent(keymap) => [NewKeymap(keymap)]
    case Enter(surface, _) => [Entered(surface)]
    case Leave(surface) => [Left(surface)]
    case _ => []
  }

  function ChangesIn(events: seq<Event>): seq<Change> {
    if events == [] then [] else ChangesIn(events[..|events| - 1]) + ChangeIn(events[|events| - 1])
  }

  lemma AppendThree(a: seq<Change>, b: seq<Change>, c: seq<Change>)
    ensures a + b + c == a + (b + c) && a + b + c + [] == a + b + c
  {
  }

  lemma {:induction false} ChangesConcat(a: seq<Event>, b: seq<Event>)
    ensures ChangesIn(a + b) == ChangesIn(a) + ChangesIn(b)
    decreases |b|
  {
    if b == [] {
      assert a + b == a;
    } else {
      var n := |b| - 1;
      assert (a + b)[..|a + b| - 1] == a + b[..n];
      ChangesConcat(a, b[..n]);
      AppendThree(ChangesIn(a), ChangesIn(b[..n]), ChangeIn(b[n]));
    }
  }

  /** What a key that is delivered changes: the keymap if it is another, and the focus if it was elsewhere.
      A surface that had the focus and is still there is left first. */
  function ChangesFor(current: Option<nat>, was: Option<Surface>, m: KeyMessage, oldAlive: bool): seq<Change>
    requires m.keymap.Some?
  {
    (if current != m.keymap then [NewKeymap(m.keymap.value)] else [])
      + ((if was.Some? && was.value != m.surface && oldAlive then [Left(was.value.id)] else [])
         + (if was != Some(m.surface) then [Entered(m.surface.id)] else []))
  }

  function ChangesAsked(requests: seq<Request>): seq<Change> {
    if requests == [] then []
    else
      var before, last := requests[..|requests| - 1], requests[|requests| - 1];
      if last.ResetRequest? || Ignored(before, last.message) then ChangesAsked(before)
      else ChangesAsked(before) + ChangesFor(KeymapAfter(before), Focus(before), last.message, last.oldAlive)
  }

  lemma ChangesOfOne(event: Event)
    ensures ChangesIn([event]) == ChangeIn(event)
  {
    var none: seq<Event> := [];
    assert [event][..0] == none;
  }

  lemma ChangesOfTwo(first: Event, second: Event)
    ensures ChangesIn([first, second]) == ChangeIn(first) + ChangeIn(second)
  {
    ChangesConcat([first], [second]);
    ChangesOfOne(first);
    ChangesOfOne(second);
    assert [first] + [second] == [first, second];
  }

  lemma ChangesOfKeymap(current: Option<nat>, m: KeyMessage)
    requires m.keymap.Some?
    ensures ChangesIn(KeymapPart(current, m)) == if current != m.keymap then [NewKeymap(m.keymap.value)] else []
  {
    ChangesOfOne(KeymapEvent(m.keymap.value));
  }

  lemma ChangesOfFocus(was: Option<Surface>, now: Surface, modifiers: Modifiers, oldAlive: bool, bytes: seq<Byte>)
    ensures ChangesIn(FocusPart(was, now, modifiers, oldAlive, bytes))
         == (if was.Some? && was.value != now && oldAlive then [Left(was.value.id)] else [])
            + (if was != Some(now) then [Entered(now.id)] else [])
  {
    if was != Some(now) {
      var left: seq<Event> := if was.Some? && oldAlive then [Leave(was.value.id)] else [];
      ChangesConcat(left, [Enter(now.id, bytes), ModifiersEvent(modifiers.(group := 0))]);
      ChangesOfTwo(Enter(now.id, bytes), ModifiersEvent(modifiers.(group := 0)));
      if left != [] {
        ChangesOfOne(left[0]);
      }
    }
  }

  lemma ChangesOfThree(events: seq<Event>, a: seq<Event>, b: seq<Event>, c: seq<Event>)
    requires ChangesIn(c) == []
    ensures ChangesIn(events + a + b + c) == ChangesIn(events) + (ChangesIn(a) + ChangesIn(b))
  {
    ChangesConcat(events + a + b, c);
    ChangesConcat(events + a, b);
    ChangesConcat(events, a);
    AppendThree(ChangesIn(events), ChangesIn(a), ChangesIn(b));
  }

  lemma ChangesOfDelivery(events: seq<Event>, current: Option<nat>, was: Option<Surface>, m: KeyMessage, oldAlive: bool,
                          bytes: seq<Byte>)
    requires m.keymap.Some?
    ensures ChangesIn(events + KeymapPart(current, m) + FocusPart(was, m.surface, m.modifiers, oldAlive, bytes) + KeyPart(m))
         == ChangesIn(events) + ChangesFor(current, was, m, oldAlive)
  {
    ChangesOfKeymap(current, m);
    ChangesOfFocus(was, m.surface, m.modifiers, oldAlive, bytes);
    ChangesOfTwo(KeyEvent(m.key, m.pressed), ModifiersEvent(m.modifiers));
    ChangesOfThree(events, KeymapPart(current, m), FocusPart(was, m.surface, m.modifiers, oldAlive, bytes), KeyPart(m));
  }

  /** The keyboard is where `requests` leave it, and a client that replayed its events agrees. */
  ghost predicate Follows(keyboard: Keyboard, requests: seq<Request>)
    reads keyboard
  {
    && keyboard.Simulates()
    && keyboard.currentKeymap == KeymapAfter(requests)
    && keyboard.focused == Focus(requests)
    && keyboard.pressedKeys == Pressed(requests)
    && (keyboard.focused.Some? ==> keyboard.focused.value.id in keyboard.pressedKeys)
    && Replay(keyboard.endian, keyboard.events).modifiers == ModifiersAfter(requests)
    && ChangesIn(keyboard.events) == ChangesAsked(requests)
  }

  /** Does request `r` of a run reach the client? */
  predicate Delivers(requests: seq<Request>, r: nat)
    requires r < |requests|
  {
    requests[r].KeyRequest? && !Ignored(requests[..r], requests[r].message)
  }

  /** Event `k` is the key of message `m`, sent to a client that holds `held`, and the client holds the
      message's modifiers right after it. */
  ghost predicate KeyAt(e: Endian, events: seq<Event>, k: nat, m: KeyMessage, held: Peer) {
    && k + 1 < |events| && events[k] == KeyEvent(m.key, m.pressed)
    && Replay(e, events[..k]) == held && Replay(e, events[..k + 2]).modifiers == m.modifiers
  }

  lemma OneKey(current: Option<nat>, was: Option<Surface>, m: KeyMessage, oldAlive: bool, bytes: seq<Byte>)
    requires m.keymap.Some?
    ensures forall x | x in KeymapPart(current, m) + FocusPart(was, m.surface, m.modifiers, oldAlive, bytes) :: !x.KeyEvent?
    ensures |KeyPart(m)| == 2 && KeyPart(m)[0] == KeyEvent(m.key, m.pressed) && !KeyPart(m)[1].KeyEvent?
  {
  }

  /** `now` continues `was`; if `sent`, the key of request `r` is the only new one, and it is in its place. */
  ghost predicate Continues(e: Endian, was: seq<Event>, now: seq<Event>, sent: bool, r: Request, held: Peer) {
    && was <= now
    && (sent ==> |was| + 2 <= |now| && r.KeyRequest? && KeyAt(e, now, |now| - 2, r.message, held))
    && forall k | |was| <= k < |now| && now[k].KeyEvent? :: sent && k == |now| - 2
  }

  lemma NewKeyIsLast(was: seq<Event>, a: seq<Event>, b: seq<Event>, c: seq<Event>, now: seq<Event>)
    requires now == was + a + b + c && (forall x | x in a + b :: !x.KeyEvent?)
    requires |c| == 2 && !c[1].KeyEvent?
    ensures was <= now && |was| + 2 <= |now|
    ensures forall k | |was| <= k < |now| && now[k].KeyEvent? :: k == |now| - 2
  {
    assert now == was + (a + b) + c;
    forall k | |was| <= k < |now| - 2 ensures !now[k].KeyEvent? {
      assert now[k] == (a + b)[k - |was|];
    }
  }

  lemma DeliveryContinues(e: Endian, was: seq<Event>, current: Option<nat>, focus: Option<Surface>, m: KeyMessage,
                          oldAlive: bool, bytes: seq<Byte>, now: seq<Event>, held: Peer)
    requires m.keymap.Some?
    requires now == was + KeymapPart(current, m) + FocusPart(focus, m.surface, m.modifiers, oldAlive, bytes) + KeyPart(m)
    requires Replay(e, now[..|now| - 2]) == held && Replay(e, now).modifiers == m.modifiers
    ensures Continues(e, was, now, true, KeyRequest(m, oldAlive), held)
  {
    OneKey(current, focus, m, oldAlive, bytes);
    NewKeyIsLast(was, KeymapPart(current, m), FocusPart(focus, m.surface, m.modifiers, oldAlive, bytes), KeyPart(m), now);
    assert now[..|now| - 2 + 2] == now;
  }

  method ServeKey(keyboard: Keyboard, m: KeyMessage, oldAlive: bool) returns (sent: bool)
    requires keyboard.Simulates()
    modifies keyboard
    ensures keyboard.Simulates()
    ensures sent <==> m.keymap.Some? && (m.keymap == old(keyboard.currentKeymap) || m.hasFile)
    ensures !sent ==>
              && keyboard.focused == old(keyboard.focused) && keyboard.pressedKeys == old(keyboard.pressedKeys)
              && keyboard.currentKeymap == old(keyboard.currentKeymap) && keyboard.events == old(keyboard.events)
    ensures sent ==> keyboard.focused == Some(m.surface) && keyboard.pressedKeys == WithKey(old(keyboard.pressedKeys), m)
    ensures sent ==> keyboard.currentKeymap == m.keymap
    ensures var modifiers := Replay(keyboard.endian, old(keyboard.events)).modifiers;
            Continues(keyboard.endian, old(keyboard.events), keyboard.events, sent, KeyRequest(m, oldAlive),
                      PeerAtKey(old(keyboard.pressedKeys), old(keyboard.focused), modifiers, m))
    ensures sent ==>
              && Replay(keyboard.endian, keyboard.events).modifiers == m.modifiers
              && ChangesIn(keyboard.events) == ChangesIn(old(keyboard.events))
                 + ChangesFor(old(keyboard.currentKeymap), old(keyboard.focused), m, oldAlive)
  {
    ghost var (was, current, focused) := (keyboard.events, keyboard.currentKeymap, keyboard.focused);
    sent := keyboard.HandleKeyboardKey(m, oldAlive);
    if sent {
      ghost var bytes :|
        keyboard.events == was + KeymapPart(current, m)
          + FocusPart(focused, m.surface, m.modifiers, oldAlive, bytes) + KeyPart(m);
      DeliveryContinues(keyboard.endian, was, current, focused, m, oldAlive, bytes, keyboard.events,
                        PeerAtKey(old(keyboard.pressedKeys), focused, Replay(keyboard.endian, was).modifiers, m));
      ChangesOfDelivery(was, current, focused, m, oldAlive, bytes);
    }
  }

  /** What the client holds when it gets the key of request `r`. */
  function HeldFor(before: seq<Request>, r: Request): Peer
  {
    if r.ResetRequest? then FRESH_PEER
    else PeerAtKey(Pressed(before), Focus(before), ModifiersAfter(before), r.message)
  }

  lemma ChangesOfReset(was: seq<Event>)
    ensures ChangesIn(was + [ModifiersEvent(NO_MODIFIERS)]) == ChangesIn(was)
  {
    assert (was + [ModifiersEvent(NO_MODIFIERS)])[..|was|] == was;
  }

  /** Serves one request; a delivered key is the only key among the new events. */
  method ServeOne(keyboard: Keyboard, ghost before: seq<Request>, r: Request) returns (sent: bool)
    requires Follows(keyboard, before)
    modifies keyboard
    ensures Follows(keyboard, before + [r])
    ensures sent <==> r.KeyRequest? && !Ignored(before, r.message)
    ensures Continues(keyboard.endian, old(keyboard.events), keyboard.events, sent, r, HeldFor(before, r))
  {
    assert (before + [r])[..|before|] == before;
    match r {
      case KeyRequest(m, oldAlive) =>
        sent := ServeKey(keyboard, m, oldAlive);
      case ResetRequest =>
        ServeReset(keyboard);
        sent := false;
    }
  }

  method ServeReset(keyboard: Keyboard)
    requires keyboard.Simulates()
    modifies keyboard`events
    ensures keyboard.Simulates()
    ensures Continues(keyboard.endian, old(keyboard.events), keyboard.events, false, ResetRequest, FRESH_PEER)
    ensures ChangesIn(keyboard.events) == ChangesIn(old(keyboard.events))
    ensures Replay(keyboard.endian, keyboard.events).modifiers
         == if keyboard.currentKeymap.None? then Replay(keyboard.endian, old(keyboard.events)).modifiers else NO_MODIFIERS
  {
    ChangesOfReset(keyboard.events);
    assert keyboard.events + [] == keyboard.events;
    keyboard.Reset();
  }

  /** A request and the key event it led to. */
  datatype Delivery = Delivery(request: nat, event: nat)

  ghost predicate InPlace(e: Endian, requests: seq<Request>, events: seq<Event>, d: Delivery) {
    && d.request < |requests| && Delivers(requests, d.request)
    && KeyAt(e, events, d.event, requests[d.request].message, HeldFor(requests[..d.request], requests[d.request]))
  }

  ghost predicate HasKey(deliveries: seq<Delivery>, k: nat) {
    exists j :: 0 <= j < |deliveries| && deliveries[j].event == k
  }

  ghost predicate HasRequest(deliveries: seq<Delivery>, r: nat) {
    exists j :: 0 <= j < |deliveries| && deliveries[j].request == r
  }

  /** The deliveries are exactly the requests that reach the client and exactly the keys it was sent, both
      in order, each key in its place. */
  ghost predicate Accounts(e: Endian, requests: seq<Request>, events: seq<Event>, deliveries: seq<Delivery>) {
    && (forall j {:trigger InPlace(e, requests, events, deliveries[j])} | 0 <= j < |deliveries| ::
          InPlace(e, requests, events, deliveries[j]))
    && (forall j, l | 0 <= j < l < |deliveries| ::
          deliveries[j].request < deliveries[l].request && deliveries[j].event < deliveries[l].event)
    && (forall k: nat {:trigger HasKey(deliveries, k)} | k < |events| && events[k].KeyEvent? :: HasKey(deliveries, k))
    && (forall r: nat {:trigger HasRequest(deliveries, r)} | r < |requests| && Delivers(requests, r) ::
          HasRequest(deliveries, r))
  }

  lemma InPlaceGrows(e: Endian, requests: seq<Request>, r: Request, events: seq<Event>, more: seq<Event>, d: Delivery)
    requires InPlace(e, requests, events, d) && events <= more
    ensures InPlace(e, requests + [r], more, d)
  {
    assert (requests + [r])[..d.request] == requests[..d.request];
    assert more[..d.event] == events[..d.event] && more[..d.event + 2] == events[..d.event + 2];
  }

  /** One more request, and what it added. */
  ghost predicate Grows(e: Endian, requests: seq<Request>, r: Request, events: seq<Event>, more: seq<Event>,
                        deliveries: seq<Delivery>, sent: bool) {
    && Accounts(e, requests, events, deliveries) && Continues(e, events, more, sent, r, HeldFor(requests, r))
    && (sent <==> r.KeyRequest? && !Ignored(requests, r.message))
  }

  function Extended(deliveries: seq<Delivery>, sent: bool, request: nat, length: nat): seq<Delivery> {
    if sent && length >= 2 then deliveries + [Delivery(request, length - 2)] else deliveries
  }

  lemma NewIsInPlace(e: Endian, requests: seq<Request>, r: Request, events: seq<Event>, more: seq<Event>,
                     deliveries: seq<Delivery>, sent: bool, j: nat)
    requires Grows(e, requests, r, events, more, deliveries, sent)
    requires j < |Extended(deliveries, sent, |requests|, |more|)|
    ensures InPlace(e, requests + [r], more, Extended(deliveries, sent, |requests|, |more|)[j])
  {
    if j < |deliveries| {
      assert InPlace(e, requests, events, deliveries[j]);
      InPlaceGrows(e, requests, r, events, more, deliveries[j]);
    } else {
      assert (requests + [r])[..|requests|] == requests;
    }
  }

  lemma NewIsLast(e: Endian, requests: seq<Request>, r: Request, events: seq<Event>, more: seq<Event>,
                  deliveries: seq<Delivery>, sent: bool)
    requires Grows(e, requests, r, events, more, deliveries, sent)
    ensures forall j | 0 <= j < |deliveries| ::
              deliveries[j].request < |requests| && deliveries[j].event + 2 < |more| + if sent then 0 else 2
  {
    forall j | 0 <= j < |deliveries|
      ensures deliveries[j].request < |requests| && deliveries[j].event + 2 < |more| + if sent then 0 else 2
    {
      assert InPlace(e, requests, events, deliveries[j]);
    }
  }

  lemma KeyIsListed(e: Endian, requests: seq<Request>, r: Request, events: seq<Event>, more: seq<Event>,
                    deliveries: seq<Delivery>, sent: bool, k: nat)
    requires Grows(e, requests, r, events, more, deliveries, sent) && k < |more| && more[k].KeyEvent?
    ensures HasKey(Extended(deliveries, sent, |requests|, |more|), k)
  {
    var now := Extended(deliveries, sent, |requests|, |more|);
    if k < |events| {
      assert HasKey(deliveries, k);
      var j :| 0 <= j < |deliveries| && deliveries[j].event == k;
      assert now[j].event == k;
    } else {
      assert now[|deliveries|].event == k;
    }
  }

  lemma RequestIsListed(e: Endian, requests: seq<Request>, r: Request, events: seq<Event>, more: seq<Event>,
                        deliveries: seq<Delivery>, sent: bool, q: nat)
    requires Grows(e, requests, r, events, more, deliveries, sent) && q <= |requests| && Delivers(requests + [r], q)
    ensures HasRequest(Extended(deliveries, sent, |requests|, |more|), q)
  {
    var now := Extended(deliveries, sent, |requests|, |more|);
    assert (requests + [r])[..q] == requests[..q];
    if q < |requests| {
      assert HasRequest(deliveries, q);
      var j :| 0 <= j < |deliveries| && deliveries[j].request == q;
      assert now[j].request == q;
    } else {
      assert requests[..q] == requests;
      assert now[|deliveries|].request == q;
    }
  }

  lemma AccountsGrow(e: Endian, requests: seq<Request>, r: Request, events: seq<Event>, more: seq<Event>,
                     deliveries: seq<Delivery>, sent: bool)
    requires Grows(e, requests, r, events, more, deliveries, sent)
    ensures Accounts(e, requests + [r], more, Extended(deliveries, sent, |requests|, |more|))
  {
    var now := Extended(deliveries, sent, |requests|, |more|);
    forall j | 0 <= j < |now| ensures InPlace(e, requests + [r], more, now[j]) {
      NewIsInPlace(e, requests, r, events, more, deliveries, sent, j);
    }
    NewIsLast(e, requests, r, events, more, deliveries, sent);
    forall k: nat | k < |more| && more[k].KeyEvent? ensures HasKey(now, k) {
      KeyIsListed(e, requests, r, events, more, deliveries, sent, k);
    }
    forall q: nat | q < |requests + [r]| && Delivers(requests + [r], q) ensures HasRequest(now, q) {
      RequestIsListed(e, requests, r, events, more, deliveries, sent, q);
    }
  }

  method ServeNext(keyboard: Keyboard, ghost served: seq<Request>, at: nat, r: Request, deliveries: seq<Delivery>)
    returns (more: seq<Delivery>)
    requires Follows(keyboard, served) && at == |served|
    requires Accounts(keyboard.endian, served, keyboard.events, deliveries)
    modifies keyboard
    ensures Follows(keyboard, served + [r])
    ensures Accounts(keyboard.endian, served + [r], keyboard.events, more)
  {
    ghost var was := keyboard.events;
    var sent := ServeOne(keyboard, served, r);
    AccountsGrow(keyboard.endian, served, r, was, keyboard.events, deliveries, sent);
    more := Extended(deliveries, sent, at, |keyboard.events|);
  }

  /** What a client that replayed the stream holds. */
  ghost predicate HoldsAll(p: Peer, requests: seq<Request>) {
    && p.keymap == KeymapAfter(requests) && p.modifiers == ModifiersAfter(requests)
    && match Focus(requests)
       case Some(s) => p.focus == Some(s.id) && s.id in Pressed(requests) && p.keys == Pressed(requests)[s.id]
       case None => p.focus.None? && p.keys == {}
  }

  /** A client that replays the stream of any run holds exactly the server's pressed-key set for the
      focused surface's object id, whatever surfaces died or reused an id on the way, and the modifiers of
      the last key. It is told of each change of keymap and of focus once, and of a leave before the enter
      exactly when the surface left is still there. Every key it was sent is that of a request, falls in the
      `enter` of that request's surface and under its keymap, and every request that was not dropped has its
      key, in order. */
  method Serve(endian: Endian, requests: seq<Request>) returns (events: seq<Event>, deliveries: seq<Delivery>)
    ensures WellFormed(endian, events) && HoldsAll(Replay(endian, events), requests)
    ensures ChangesIn(events) == ChangesAsked(requests)
    ensures Accounts(endian, requests, events, deliveries)
  {
    var keyboard := new Keyboard(endian);
    deliveries := [];
    ghost var served: seq<Request> := [];
    var i := 0;
    while i < |requests|
      invariant 0 <= i <= |requests| && fresh(keyboard) && keyboard.endian == endian && served == requests[..i]
      invariant Follows(keyboard, served) && Accounts(endian, served, keyboard.events, deliveries)
    {
      deliveries := ServeNext(keyboard, served, i, requests[i], deliveries);
      served := served + [requests[i]];
      i := i + 1;
    }
    assert served == requests;
    events := keyboard.events;
  }

  // ---------------------------------------------------------------------------------------------
  // Keys inherited with an object id
  // ---------------------------------------------------------------------------------------------

  /** The keys of messages to this very surface that are down. */
  function OwnKeys(requests: seq<Request>, s: Surface): set<Key> {
    if requests == [] then {}
    else
      var n := |requests| - 1;
      var before := OwnKeys(requests[..n], s);
      if Delivers(requests, n) && requests[n].message.surface == s
      then Update(before, requests[n].message.key, requests[n].message.pressed)
      else before
  }

  /** What the table holds for an object id. */
  function KeysOfId(requests: seq<Request>, id: ObjectId): set<Key> {
    if id in Pressed(requests) then Pressed(requests)[id] else {}
  }

  /** Key `k` was left down under id `id` by a surface other than `s`, and no message to the id has named it
      since; or `s` left it down and another surface let it up. */
  ghost predicate Confused(requests: seq<Request>, s: Surface, k: Key)
    decreases |requests|
  {
    requests != [] &&
    var n := |requests| - 1;
    if Delivers(requests, n) && requests[n].message.surface.id == s.id && requests[n].message.key == k
    then requests[n].message.surface != s && (requests[n].message.pressed <==> k !in OwnKeys(requests[..n], s))
    else Confused(requests[..n], s, k)
  }

  /** The table has exactly the keys of the surface itself unless a key was last named, for its id, by
      another surface that left it otherwise than the surface had. */
  lemma {:induction false} InheritsIff(requests: seq<Request>, s: Surface, k: Key)
    ensures (k in KeysOfId(requests, s.id) <==> k in OwnKeys(requests, s)) <==> !Confused(requests, s, k)
    decreases |requests|
  {
    if requests != [] {
      InheritsIff(requests[..|requests| - 1], s, k);
    }
  }

  /** An input: surface 1 presses key 30 and goes away, surface 2 gets its object id. The enter of surface 2
      says that 30 is down, though no message to that surface ever named it. */
  lemma ReusedIdInherits() returns (requests: seq<Request>, s: Surface)
    ensures Focus(requests) == Some(s) && KeysOfId(requests, s.id) == {30, 31} && OwnKeys(requests, s) == {31}
  {
    s := Surface(2, 5);
    var none := Modifiers(0, 0, 0, 0);
    var first := KeyRequest(KeyMessage(Surface(1, 5), Some(7), true, 30, true, none), false);
    var second := KeyRequest(KeyMessage(s, Some(7), true, 31, true, none), false);
    requests := [first, second];
    var one := [first];
    assert requests[..|requests| - 1] == one && requests[|requests| - 1] == second;
    FirstKey(first, s);
    assert Delivers(requests, 1) && !Ignored(one, second.message);
    assert Pressed(requests) == WithKey(Pressed(one), second.message);
  }

  lemma FirstKey(first: Request, s: Surface)
    requires first.KeyRequest? && first.message.keymap.Some? && first.message.hasFile && first.message.surface != s
    ensures KeymapAfter([first]) == first.message.keymap && OwnKeys([first], s) == {}
    ensures Pressed([first]) == map[first.message.surface.id := Update({}, first.message.key, first.message.pressed)]
  {
    var one := [first];
    var none: seq<Request> := [];
    assert one[..|one| - 1] == none && one[|one| - 1] == first;
    assert Pressed(none) == map[] && KeymapAfter(none) == None && OwnKeys(none, s) == {} && !Ignored(none, first.message);
    assert Pressed(one) == WithKey(Pressed(none), first.message);
    assert KeymapAfter(one) == first.message.keymap;
    assert OwnKeys(one, s) == OwnKeys(none, s);
  }
}
