/** The pointer's focus brackets. */
module Pointer {
  import opened Wrappers

  /** `allocation` is the surface's identity; `id` may be used again after the surface is gone. */
  datatype Surface = Surface(allocation: nat, id: nat)

  datatype Event =
    | Enter(surface: Surface, x: int, y: int)  // on the wire only the surface's id is sent
    | Leave(id: nat)
    | Motion(x: int, y: int)
    | Frame

  /** A change of focus: the surface that had it is left if it is still there. */
  function FocusEvents(was: Option<Surface>, wasAlive: bool, now: Surface, x: int, y: int): seq<Event> {
    if was == Some(now) then []
    else (if was.Some? && wasAlive then [Leave(was.value.id)] else []) + [Enter(now, x, y)]
  }

  function FrameEvents(version: nat): seq<Event> {
    if version >= 5 then [Frame] else []
  }

  /** What a motion sends, given who had the focus and whether that surface is still there. */
  function MotionEvents(version: nat, was: Option<Surface>, wasAlive: bool, now: Surface, x: int, y: int): seq<Event> {
    FocusEvents(was, wasAlive, now, x, y) + [Motion(x, y)] + FrameEvents(version)
  }

  /** A reset ends the bracket with a frame whatever the version is. */
  function ResetEvents(was: Option<Surface>, wasAlive: bool): seq<Event> {
    if was.Some? && wasAlive then [Leave(was.value.id), Frame] else []
  }

  class Pointer {
    const version: nat
    var focused: Option<Surface>  // a weak reference: the surface may be gone

    constructor (version: nat)
      ensures this.version == version && focused.None?
    {
      this.version, focused := version, None;
    }

    method HandleAbsolutePointerMotion(surface: Surface, x: int, y: int, wasAlive: bool) returns (sent: seq<Event>)
      modifies this
      ensures focused == Some(surface)
      ensures sent == MotionEvents(version, old(focused), wasAlive, surface, x, y)
    {
      sent := [];
      if focused != Some(surface) {
        if focused.Some? && wasAlive {
          sent := sent + [Leave(focused.value.id)];
        }
        sent := sent + [Enter(surface, x, y)];
        focused := Some(surface);
      }
      sent := sent + [Motion(x, y)];
      if version >= 5 {
        sent := sent + [Frame];
      }
    }

    method Reset(wasAlive: bool) returns (sent: seq<Event>)
      modifies this
      ensures focused.None? && sent == ResetEvents(old(focused), wasAlive)
    {
      sent := [];
      if focused.Some? && wasAlive {
        sent := sent + [Leave(focused.value.id)];
        sent := sent + [Frame];
      }
      focused := None;
    }
  }

  // ---------------------------------------------------------------------------------------------
  // Whole runs
  // ---------------------------------------------------------------------------------------------

  datatype Request =
    | MotionRequest(surface: Surface, x: int, y: int)
    | ResetRequest
    | Dies(surface: Surface)

  /** An event and the index of the request that sent it. */
  datatype Stamped = Stamped(event: Event, at: nat)

  function Dead(requests: seq<Request>): set<Surface> {
    set r | r in requests && r.Dies? :: r.surface
  }

  /** A motion message holds its surface, so that surface is there when the message is handled. */
  ghost predicate Possible(requests: seq<Request>) {
    forall i | 0 <= i < |requests| && requests[i].MotionRequest? :: requests[i].surface !in Dead(requests[..i])
  }

  /** The surface of the latest `enter` that was not left. */
  function Open(events: seq<Stamped>): Option<Surface> {
    if events == [] then None
    else
      var before := Open(events[..|events| - 1]);
      match events[|events| - 1].event
      case Enter(s, _, _) => Some(s)
      case Leave(_) => None
      case _ => before
  }

  /** Event `i` is inside its bracket: a `leave` closes the bracket that is open, an `enter` finds none
      open except for a surface that is gone, and a `motion` is inside the bracket of its own surface. */
  ghost predicate Bracketed(requests: seq<Request>, events: seq<Stamped>, i: nat)
    requires i < |events|
  {
    var (open, at) := (Open(events[..i]), events[i].at);
    && at < |requests|
    && match events[i].event
       case Enter(s, _, _) => open.Some? ==> open.value in Dead(requests[..at])
       case Leave(id) => open.Some? && open.value.id == id
       case Motion(x, y) => requests[at].MotionRequest? && open == Some(requests[at].surface)
                            && x == requests[at].x && y == requests[at].y
       case Frame => true
  }

  ghost predicate AllBracketed(requests: seq<Request>, events: seq<Stamped>) {
    forall i | 0 <= i < |events| :: Bracketed(requests, events, i)
  }

  lemma AppendBracketed(requests: seq<Request>, events: seq<Stamped>, e: Stamped)
    requires AllBracketed(requests, events)
    requires Bracketed(requests, events + [e], |events|)
    ensures AllBracketed(requests, events + [e])
    ensures Open(events + [e]) == match e.event case Enter(s, _, _) => Some(s) case Leave(_) => None case _ => Open(events)
  {
    var more := events + [e];
    assert more[..|events|] == events;
    forall i | 0 <= i < |more| ensures Bracketed(requests, more, i) {
      if i < |events| {
        assert Bracketed(requests, events, i) && more[..i] == events[..i];
      }
    }
  }

  function Stamps(sent: seq<Event>, at: nat): seq<Stamped> {
    seq(|sent|, i requires 0 <= i < |sent| => Stamped(sent[i], at))
  }

  lemma StampsAppend(events: seq<Stamped>, sent: seq<Event>, e: Event, at: nat)
    ensures events + Stamps(sent + [e], at) == events + Stamps(sent, at) + [Stamped(e, at)]
  {
    assert Stamps(sent + [e], at) == Stamps(sent, at) + [Stamped(e, at)];
  }

  lemma AppendStamp(requests: seq<Request>, events: seq<Stamped>, sent: seq<Event>, e: Event, at: nat)
    requires AllBracketed(requests, events + Stamps(sent, at))
    requires Bracketed(requests, events + Stamps(sent, at) + [Stamped(e, at)], |events| + |sent|)
    ensures AllBracketed(requests, events + Stamps(sent + [e], at))
    ensures Open(events + Stamps(sent + [e], at))
         == match e case Enter(s, _, _) => Some(s) case Leave(_) => None case _ => Open(events + Stamps(sent, at))
  {
    StampsAppend(events, sent, e, at);
    AppendBracketed(requests, events + Stamps(sent, at), Stamped(e, at));
  }

  /** The focus and the client's open bracket agree, up to a surface that is gone. */
  ghost predicate Agree(requests: seq<Request>, n: nat, focused: Option<Surface>, events: seq<Stamped>)
    requires n <= |requests|
  {
    match focused
    case Some(s) => Open(events) == Some(s)
    case None => Open(events).Some? ==> Open(events).value in Dead(requests[..n])
  }

  lemma NextIs(events: seq<Stamped>, sent: seq<Event>, e: Event, at: nat)
    ensures var more := events + Stamps(sent, at) + [Stamped(e, at)];
            more[..|events| + |sent|] == events + Stamps(sent, at) && more[|events| + |sent|] == Stamped(e, at)
  {
  }

  lemma AfterMotion(requests: seq<Request>, events: seq<Stamped>, n: nat, was: Option<Surface>, version: nat)
    requires n < |requests| && requests[n].MotionRequest? && Possible(requests)
    requires AllBracketed(requests, events) && Agree(requests, n, was, events)
    ensures var (r, dead) := (requests[n], Dead(requests[..n]));
            var more := events + Stamps(MotionEvents(version, was, was.Some? && was.value !in dead, r.surface, r.x, r.y), n);
            AllBracketed(requests, more) && Open(more) == Some(r.surface)
  {
    var r := requests[n];
    var alive := was.Some? && was.value !in Dead(requests[..n]);
    var sent: seq<Event> := [];
    assert events + Stamps(sent, n) == events;
    if was != Some(r.surface) {
      if alive {
        NextIs(events, sent, Leave(was.value.id), n);
        AppendStamp(requests, events, sent, Leave(was.value.id), n);
        sent := sent + [Leave(was.value.id)];
      }
      NextIs(events, sent, Enter(r.surface, r.x, r.y), n);
      AppendStamp(requests, events, sent, Enter(r.surface, r.x, r.y), n);
      sent := sent + [Enter(r.surface, r.x, r.y)];
    }
    NextIs(events, sent, Motion(r.x, r.y), n);
    AppendStamp(requests, events, sent, Motion(r.x, r.y), n);
    sent := sent + [Motion(r.x, r.y)];
    if version >= 5 {
      NextIs(events, sent, Frame, n);
      AppendStamp(requests, events, sent, Frame, n);
      sent := sent + [Frame];
    }
    assert sent == MotionEvents(version, was, alive, r.surface, r.x, r.y);
  }

  lemma AfterReset(requests: seq<Request>, events: seq<Stamped>, n: nat, was: Option<Surface>)
    requires n < |requests| && AllBracketed(requests, events) && Agree(requests, n, was, events)
    ensures var dead := Dead(requests[..n]);
            var more := events + Stamps(ResetEvents(was, was.Some? && was.value !in dead), n);
            AllBracketed(requests, more) && (Open(more).Some? ==> Open(more).value in dead)
  {
    var alive := was.Some? && was.value !in Dead(requests[..n]);
    assert events + Stamps([], n) == events;
    if alive {
      NextIs(events, [], Leave(was.value.id), n);
      AppendStamp(requests, events, [], Leave(was.value.id), n);
      assert [] + [Leave(was.value.id)] == [Leave(was.value.id)];
      NextIs(events, [Leave(was.value.id)], Frame, n);
      AppendStamp(requests, events, [Leave(was.value.id)], Frame, n);
      assert [Leave(was.value.id)] + [Frame] == ResetEvents(was, alive);
    }
  }

  function FocusAfter(requests: seq<Request>): Option<Surface> {
    if requests == [] then None
    else
      match requests[|requests| - 1]
      case MotionRequest(s, _, _) => Some(s)
      case ResetRequest => None
      case Dies(_) => FocusAfter(requests[..|requests| - 1])
  }

  /** What one request sends. */
  function EventsOfOne(version: nat, was: Option<Surface>, wasAlive: bool, r: Request): seq<Event> {
    match r
    case MotionRequest(s, x, y) => MotionEvents(version, was, wasAlive, s, x, y)
    case ResetRequest => ResetEvents(was, wasAlive)
    case Dies(_) => []
  }

  /** Everything a run sends. */
  function EventsOf(version: nat, requests: seq<Request>): seq<Stamped> {
    if requests == [] then []
    else
      var n := |requests| - 1;
      var before := requests[..n];
      var was := FocusAfter(before);
      var wasAlive := was.Some? && was.value !in Dead(before);
      EventsOf(version, before) + Stamps(EventsOfOne(version, was, wasAlive, requests[n]), n)
  }

  lemma {:induction false} EventsOfPrefix(version: nat, requests: seq<Request>, n: nat)
    requires n <= |requests| && Possible(requests)
    ensures AllBracketed(requests, EventsOf(version, requests[..n]))
    ensures Agree(requests, n, FocusAfter(requests[..n]), EventsOf(version, requests[..n]))
    decreases n
  {
    if n > 0 {
      EventsOfPrefix(version, requests, n - 1);
      assert requests[..n][..n - 1] == requests[..n - 1];
      var events := EventsOf(version, requests[..n - 1]);
      var was := FocusAfter(requests[..n - 1]);
      match requests[n - 1]
      case MotionRequest(_, _, _) => AfterMotion(requests, events, n - 1, was, version);
      case ResetRequest =>
        AfterReset(requests, events, n - 1, was);
        assert Dead(requests[..n - 1]) <= Dead(requests[..n]);
      case Dies(s) =>
        assert EventsOf(version, requests[..n]) == events;
        assert Dead(requests[..n - 1]) <= Dead(requests[..n]);
    }
  }

  /** In every run with resets and dying surfaces, every event is inside its bracket. */
  lemma EveryRunIsBracketed(version: nat, requests: seq<Request>)
    requires Possible(requests)
    ensures AllBracketed(requests, EventsOf(version, requests))
  {
    EventsOfPrefix(version, requests, |requests|);
    assert requests[..|requests|] == requests;
  }

  // ---------------------------------------------------------------------------------------------
  // What must be sent
  // ---------------------------------------------------------------------------------------------

  datatype Kind = Enters | Leaves | Motions | Frames

  function KindOf(e: Event): Kind {
    match e
    case Enter(_, _, _) => Enters
    case Leave(_) => Leaves
    case Motion(_, _) => Motions
    case Frame => Frames
  }

  function OfKind(kind: Kind, events: seq<Stamped>): seq<Stamped> {
    if events == [] then []
    else
      var last := events[|events| - 1];
      OfKind(kind, events[..|events| - 1]) + if KindOf(last.event) == kind then [last] else []
  }

  /** The event of a kind that request `r` asks for: every motion, an enter where the focus was elsewhere,
      a leave of a surface that is still there, and a frame where the protocol's version has one or a reset
      sent a leave. */
  function AskedBy(kind: Kind, version: nat, was: Option<Surface>, wasAlive: bool, r: Request): seq<Event>
    requires wasAlive ==> was.Some?
  {
    var refocus := r.MotionRequest? && was != Some(r.surface);
    match kind
    case Enters => if refocus then [Enter(r.surface, r.x, r.y)] else []
    case Leaves => if wasAlive && (refocus || r.ResetRequest?) then [Leave(was.value.id)] else []
    case Motions => if r.MotionRequest? then [Motion(r.x, r.y)] else []
    case Frames => if (r.MotionRequest? && version >= 5) || (r.ResetRequest? && wasAlive) then [Frame] else []
  }

  function Asked(kind: Kind, version: nat, requests: seq<Request>): seq<Stamped> {
    if requests == [] then []
    else
      var n := |requests| - 1;
      var was := FocusAfter(requests[..n]);
      var wasAlive := was.Some? && was.value !in Dead(requests[..n]);
      Asked(kind, version, requests[..n]) + Stamps(AskedBy(kind, version, was, wasAlive, requests[n]), n)
  }

  function Only(kind: Kind, sent: seq<Event>): seq<Event> {
    if sent == [] then []
    else (if KindOf(sent[0]) == kind then [sent[0]] else []) + Only(kind, sent[1..])
  }

  /** The events of a kind are found request by request. */
  lemma {:induction false} OfKindStamps(kind: Kind, events: seq<Stamped>, sent: seq<Event>, at: nat)
    ensures OfKind(kind, events + Stamps(sent, at)) == OfKind(kind, events) + Stamps(Only(kind, sent), at)
    decreases |sent|
  {
    if sent == [] {
      assert events + Stamps(sent, at) == events;
    } else {
      var first := Stamped(sent[0], at);
      var kept: seq<Event> := if KindOf(sent[0]) == kind then [sent[0]] else [];
      assert (events + [first])[..|events|] == events;
      assert events + Stamps(sent, at) == events + [first] + Stamps(sent[1..], at);
      OfKindStamps(kind, events + [first], sent[1..], at);
      StampsConcat(OfKind(kind, events), kept, Only(kind, sent[1..]), at);
    }
  }

  lemma StampsConcat(events: seq<Stamped>, a: seq<Event>, b: seq<Event>, at: nat)
    ensures events + Stamps(a, at) + Stamps(b, at) == events + Stamps(a + b, at)
  {
  }

  lemma {:induction false} OnlyConcat(kind: Kind, a: seq<Event>, b: seq<Event>)
    ensures Only(kind, a + b) == Only(kind, a) + Only(kind, b)
    decreases |a|
  {
    if a == [] {
      assert a + b == b;
    } else {
      assert (a + b)[0] == a[0] && (a + b)[1..] == a[1..] + b;
      OnlyConcat(kind, a[1..], b);
    }
  }

  lemma OnlyOne(kind: Kind, e: Event)
    ensures Only(kind, [e]) == if KindOf(e) == kind then [e] else []
  {
    assert [e][1..] == [];
  }

  lemma OnlyTwo(kind: Kind, first: Event, second: Event)
    ensures Only(kind, [first, second]) == Only(kind, [first]) + Only(kind, [second])
  {
    OnlyConcat(kind, [first], [second]);
    assert [first] + [second] == [first, second];
  }

  lemma OnlyOfFocus(kind: Kind, version: nat, was: Option<Surface>, wasAlive: bool, r: Request)
    requires r.MotionRequest? && (wasAlive ==> was.Some?)
    ensures Only(kind, FocusEvents(was, wasAlive, r.surface, r.x, r.y))
         == if kind == Enters || kind == Leaves then AskedBy(kind, version, was, wasAlive, r) else []
  {
    if was != Some(r.surface) {
      OnlyOne(kind, Enter(r.surface, r.x, r.y));
      if wasAlive {
        OnlyTwo(kind, Leave(was.value.id), Enter(r.surface, r.x, r.y));
        OnlyOne(kind, Leave(was.value.id));
        assert [Leave(was.value.id)] + [Enter(r.surface, r.x, r.y)] == [Leave(was.value.id), Enter(r.surface, r.x, r.y)];
      } else {
        assert [] + [Enter(r.surface, r.x, r.y)] == [Enter(r.surface, r.x, r.y)];
      }
    }
  }

  lemma OnlyOfFrames(kind: Kind, version: nat)
    ensures Only(kind, FrameEvents(version)) == if kind == Frames then FrameEvents(version) else []
  {
    OnlyOne(kind, Frame);
  }

  lemma OnlyOfThree(kind: Kind, a: seq<Event>, b: seq<Event>, c: seq<Event>)
    ensures Only(kind, a + b + c) == Only(kind, a) + Only(kind, b) + Only(kind, c)
  {
    OnlyConcat(kind, a + b, c);
    OnlyConcat(kind, a, b);
  }

  lemma OnlyOfMotion(kind: Kind, version: nat, was: Option<Surface>, wasAlive: bool, r: Request)
    requires r.MotionRequest? && (wasAlive ==> was.Some?)
    ensures Only(kind, MotionEvents(version, was, wasAlive, r.surface, r.x, r.y))
         == AskedBy(kind, version, was, wasAlive, r)
  {
    OnlyOfThree(kind, FocusEvents(was, wasAlive, r.surface, r.x, r.y), [Motion(r.x, r.y)], FrameEvents(version));
    OnlyOfFocus(kind, version, was, wasAlive, r);
    OnlyOne(kind, Motion(r.x, r.y));
    OnlyOfFrames(kind, version);
  }

  lemma OnlyOfOne(kind: Kind, version: nat, was: Option<Surface>, wasAlive: bool, r: Request)
    requires wasAlive ==> was.Some?
    ensures Only(kind, EventsOfOne(version, was, wasAlive, r)) == AskedBy(kind, version, was, wasAlive, r)
  {
    if r.MotionRequest? {
      OnlyOfMotion(kind, version, was, wasAlive, r);
    } else if r.ResetRequest? && wasAlive {
      OnlyTwo(kind, Leave(was.value.id), Frame);
      OnlyOne(kind, Leave(was.value.id));
      OnlyOne(kind, Frame);
    }
  }

  /** In every run each kind of event is sent exactly where it is asked for, at the position asked for and
      in order: one motion for each motion, and so on. */
  lemma {:induction false} EachKindIsAsAsked(kind: Kind, version: nat, requests: seq<Request>)
    ensures OfKind(kind, EventsOf(version, requests)) == Asked(kind, version, requests)
    decreases |requests|
  {
    if requests != [] {
      var n := |requests| - 1;
      var was := FocusAfter(requests[..n]);
      var wasAlive := was.Some? && was.value !in Dead(requests[..n]);
      EachKindIsAsAsked(kind, version, requests[..n]);
      OfKindStamps(kind, EventsOf(version, requests[..n]), EventsOfOne(version, was, wasAlive, requests[n]), n);
      OnlyOfOne(kind, version, was, wasAlive, requests[n]);
    }
  }

  /** The pointer and the surfaces that died are where `requests` leave them. */
  ghost predicate Follows(pointer: Pointer, requests: seq<Request>, dead: set<Surface>)
    reads pointer
  {
    dead == Dead(requests) && pointer.focused == FocusAfter(requests)
  }

  lemma OneMoreRequest(version: nat, before: seq<Request>, r: Request)
    ensures var (was, n, all) := (FocusAfter(before), |before|, before + [r]);
            var wasAlive := was.Some? && was.value !in Dead(before);
            && EventsOf(version, all) == EventsOf(version, before) + Stamps(EventsOfOne(version, was, wasAlive, r), n)
            && FocusAfter(all)
               == (match r case MotionRequest(s, _, _) => Some(s) case ResetRequest => None case Dies(_) => was)
            && Dead(all) == Dead(before) + if r.Dies? then {r.surface} else {}
  {
    assert (before + [r])[..|before|] == before;
  }

  method ServeOne(pointer: Pointer, ghost before: seq<Request>, r: Request, at: nat, dead: set<Surface>)
    returns (sent: seq<Stamped>, now: set<Surface>)
    requires Follows(pointer, before, dead) && at == |before|
    modifies pointer
    ensures Follows(pointer, before + [r], now)
    ensures EventsOf(pointer.version, before + [r]) == EventsOf(pointer.version, before) + sent
  {
    OneMoreRequest(pointer.version, before, r);
    var wasAlive := pointer.focused.Some? && pointer.focused.value !in dead;
    var events: seq<Event> := [];
    now := dead;
    match r {
      case MotionRequest(s, x, y) => events := pointer.HandleAbsolutePointerMotion(s, x, y, wasAlive);
      case ResetRequest => events := pointer.Reset(wasAlive);
      case Dies(s) => now := dead + {s};
    }
    sent := Stamps(events, at);
  }

  method Serve(version: nat, requests: seq<Request>) returns (events: seq<Stamped>)
    requires Possible(requests)
    ensures events == EventsOf(version, requests) && AllBracketed(requests, events)
    ensures forall kind :: OfKind(kind, events) == Asked(kind, version, requests)
  {
    var pointer := new Pointer(version);
    events := [];
    var dead: set<Surface> := {};
    ghost var served: seq<Request> := [];
    var n := 0;
    while n < |requests|
      invariant 0 <= n <= |requests| && fresh(pointer) && pointer.version == version && served == requests[..n]
      invariant Follows(pointer, served, dead) && events == EventsOf(version, served)
    {
      var sent: seq<Stamped>;
      sent, dead := ServeOne(pointer, served, requests[n], n, dead);
      events := events + sent;
      served := served + [requests[n]];
      n := n + 1;
    }
    assert served == requests;
    EveryRunIsBracketed(version, requests);
    forall kind ensures OfKind(kind, events) == Asked(kind, version, requests) {
      EachKindIsAsAsked(kind, version, requests);
    }
  }
}
