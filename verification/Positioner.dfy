/** Where an `xdg_positioner` puts a popup when nothing constrains it, and what its requests set. */
module Positioner {
  const TWO_31 := 0x8000_0000
  const TWO_32 := 0x1_0000_0000
  const TWO_29 := 0x2000_0000

  type I32 = n: int | -TWO_31 <= n < TWO_31
  type U32 = n: nat | n < TWO_32

  /** An `i32` step of a release build; a debug build panics where this changes the value. */
  function Wrap(n: int): (r: I32)
    ensures -TWO_31 <= n < TWO_31 ==> r == n
  {
    (n + TWO_31) % TWO_32 - TWO_31
  }

  datatype Vector<T> = Vector(x: T, y: T)

  datatype Geometry = Geometry(origin: Vector<I32>, size: Vector<U32>)

  /** `Anchor` and `Gravity` have the same nine names. */
  datatype Edges = Centre | Top | Bottom | Left | Right | TopLeft | BottomLeft | TopRight | BottomRight

  datatype PositionerData = PositionerData(
    size: Vector<U32>,
    anchorRect: Geometry,
    offset: Vector<I32>,
    anchor: Edges,
    gravity: Edges,
    constraintAdjustment: bv32,
    reactive: bool,
    parentSize: Vector<U32>)

  const DEFAULT := PositionerData(
    Vector(0, 0), Geometry(Vector(0, 0), Vector(0, 0)), Vector(0, 0), TopLeft, TopLeft, 0, false, Vector(0, 0))

  // ---------------------------------------------------------------------------------------------
  // The intended place, one axis at a time and without a width
  // ---------------------------------------------------------------------------------------------

  datatype Side = Low | Middle | High

  function XSide(e: Edges): Side {
    match e
    case Left | TopLeft | BottomLeft => Low
    case Right | TopRight | BottomRight => High
    case _ => Middle
  }

  function YSide(e: Edges): Side {
    match e
    case Top | TopLeft | TopRight => Low
    case Bottom | BottomLeft | BottomRight => High
    case _ => Middle
  }

  /** One axis of a positioner. */
  datatype Axis = Axis(at: int, length: nat, offset: int, size: nat, anchor: Side, gravity: Side)

  function XAxis(d: PositionerData): Axis {
    Axis(d.anchorRect.origin.x, d.anchorRect.size.x, d.offset.x, d.size.x, XSide(d.anchor), XSide(d.gravity))
  }

  function YAxis(d: PositionerData): Axis {
    Axis(d.anchorRect.origin.y, d.anchorRect.size.y, d.offset.y, d.size.y, YSide(d.anchor), YSide(d.gravity))
  }

  /** How far along the anchor rectangle the anchor point is. */
  function Along(a: Axis): nat {
    match a.anchor case Low => 0 case Middle => a.length / 2 case High => a.length
  }

  /** How far the popup reaches back from the anchor point: gravity is the way it grows. */
  function Back(a: Axis): nat {
    match a.gravity case Low => a.size case Middle => a.size / 2 case High => 0
  }

  function Ideal(a: Axis): int {
    a.at + Along(a) + a.offset - Back(a)
  }

  /** No value on the way leaves the range of `i32`, so that no step wraps. */
  predicate InRange(a: Axis) {
    && Along(a) < TWO_31 && Back(a) < TWO_31
    && -TWO_31 <= a.at + Along(a) < TWO_31
    && -TWO_31 <= a.at + Along(a) + a.offset < TWO_31
    && -TWO_31 <= Ideal(a) < TWO_31
  }

  // ---------------------------------------------------------------------------------------------
  // The code's arithmetic
  // ---------------------------------------------------------------------------------------------

  /** Only asked of the four single edges. */
  predicate GravityHasEdge(gravity: Edges, edge: Edges) {
    match edge
    case Top => gravity == Top || gravity == TopLeft || gravity == TopRight
    case Bottom => gravity == Bottom || gravity == BottomLeft || gravity == BottomRight
    case Left => gravity == Left || gravity == TopLeft || gravity == BottomLeft
    case Right => gravity == Right || gravity == TopRight || gravity == BottomRight
    case _ => false
  }

  lemma EdgesAreSides(gravity: Edges)
    ensures GravityHasEdge(gravity, Top) <==> YSide(gravity) == Low
    ensures GravityHasEdge(gravity, Bottom) <==> YSide(gravity) == High
    ensures GravityHasEdge(gravity, Left) <==> XSide(gravity) == Low
    ensures GravityHasEdge(gravity, Right) <==> XSide(gravity) == High
  {
  }

  lemma WrapIsUnique(r: I32, n: int, k: int)
    requires r == n - TWO_32 * k
    ensures r == Wrap(n)
  {
  }

  lemma WrapRemoves(n: int) returns (k: int)
    ensures Wrap(n) == n - TWO_32 * k
  {
    k := (n + TWO_31) / TWO_32;
  }

  lemma WrapInner(a: int, b: int)
    ensures Wrap(Wrap(a) + b) == Wrap(a + b)
  {
    var j := WrapRemoves(a);
    var k := WrapRemoves(Wrap(a) + b);
    WrapIsUnique(Wrap(Wrap(a) + b), a + b, j + k);
  }

  lemma WrapMinus(a: int, b: int)
    ensures Wrap(Wrap(a) - Wrap(b)) == Wrap(a - b)
  {
    var i := WrapRemoves(a);
    var j := WrapRemoves(b);
    var k := WrapRemoves(Wrap(a) - Wrap(b));
    WrapIsUnique(Wrap(Wrap(a) - Wrap(b)), a - b, i - j + k);
  }

  /** The three wrapping steps of one axis. */
  function Stepped(a: Axis): I32 {
    Wrap(Wrap(Wrap(a.at + Wrap(Along(a))) + a.offset) - Wrap(Back(a)))
  }

  /** However often it wraps on the way, the result is the intended place modulo 2^32. */
  lemma SteppedIsIdeal(a: Axis)
    ensures Stepped(a) == Wrap(Ideal(a))
  {
    var (along, at) := (a.at + Along(a), a.at + Along(a) + a.offset);
    WrapInner(Along(a), a.at);
    assert Wrap(a.at + Wrap(Along(a))) == Wrap(along);
    WrapInner(along, a.offset);
    assert Wrap(Wrap(along) + a.offset) == Wrap(at);
    WrapMinus(at, Back(a));
  }

  function AnchorPoint(d: PositionerData): Vector<I32> {
    var (o, s) := (d.anchorRect.origin, d.anchorRect.size);
    match d.anchor
    case TopLeft => o
    case Top => Vector(Wrap(o.x + Wrap(s.x / 2)), o.y)
    case TopRight => Vector(Wrap(o.x + Wrap(s.x)), o.y)
    case Left => Vector(o.x, Wrap(o.y + Wrap(s.y / 2)))
    case Right => Vector(Wrap(o.x + Wrap(s.x)), Wrap(o.y + Wrap(s.y / 2)))
    case BottomLeft => Vector(o.x, Wrap(o.y + Wrap(s.y)))
    case Bottom => Vector(Wrap(o.x + Wrap(s.x / 2)), Wrap(o.y + Wrap(s.y)))
    case BottomRight => Vector(Wrap(o.x + Wrap(s.x)), Wrap(o.y + Wrap(s.y)))
    case Centre => Vector(Wrap(o.x + Wrap(s.x / 2)), Wrap(o.y + Wrap(s.y / 2)))
  }

  lemma AnchorIsAlong(d: PositionerData)
    ensures AnchorPoint(d).x == Wrap(XAxis(d).at + Wrap(Along(XAxis(d))))
    ensures AnchorPoint(d).y == Wrap(YAxis(d).at + Wrap(Along(YAxis(d))))
  {
  }

  /** Gravity on one axis: `low` and `high` say which of the axis's edges it has. */
  function Pulled(at: I32, size: U32, low: bool, high: bool): I32 {
    if low then Wrap(at - Wrap(size)) else if !high then Wrap(at - Wrap(size / 2)) else at
  }

  lemma AxisSteps(a: Axis, point: I32, at: I32, size: U32)
    requires size == a.size && point == Wrap(a.at + Wrap(Along(a))) && at == Wrap(point + a.offset)
    ensures Pulled(at, size, a.gravity == Low, a.gravity == High) == Wrap(Ideal(a))
  {
    SteppedIsIdeal(a);
    assert Wrap(at - Wrap(0)) == at;
  }

  /** The intended place, wrapped. */
  function WrappedIdeal(d: PositionerData): Vector<I32> {
    Vector(Wrap(Ideal(XAxis(d))), Wrap(Ideal(YAxis(d))))
  }

  lemma StepsGiveIdeal(d: PositionerData, x: I32, y: I32)
    requires x == Wrap(AnchorPoint(d).x + d.offset.x) && y == Wrap(AnchorPoint(d).y + d.offset.y)
    ensures Pulled(x, d.size.x, GravityHasEdge(d.gravity, Left), GravityHasEdge(d.gravity, Right)) == WrappedIdeal(d).x
    ensures Pulled(y, d.size.y, GravityHasEdge(d.gravity, Top), GravityHasEdge(d.gravity, Bottom)) == WrappedIdeal(d).y
  {
    AnchorIsAlong(d);
    EdgesAreSides(d.gravity);
    AxisSteps(XAxis(d), AnchorPoint(d).x, x, d.size.x);
    AxisSteps(YAxis(d), AnchorPoint(d).y, y, d.size.y);
  }

  /** `p` is the anchor point: on the named edge or corner of the anchor rectangle, and in the middle of it
      along an axis that the anchor does not name, up to half a pixel towards the start. */
  predicate IsAnchorPoint(d: PositionerData, p: Vector<int>) {
    var (o, s) := (d.anchorRect.origin, d.anchorRect.size);
    && (match d.anchor
        case Left | TopLeft | BottomLeft => p.x == o.x
        case Right | TopRight | BottomRight => p.x == o.x + s.x
        case _ => -1 <= 2 * p.x - (o.x + (o.x + s.x)) <= 0)
    && (match d.anchor
        case Top | TopLeft | TopRight => p.y == o.y
        case Bottom | BottomLeft | BottomRight => p.y == o.y + s.y
        case _ => -1 <= 2 * p.y - (o.y + (o.y + s.y)) <= 0)
  }

  /** A popup at `at` lies to the named side of `p`, touching it, and is centred on it along an axis that
      the gravity does not name, up to half a pixel towards the end. */
  predicate GrowsFrom(d: PositionerData, p: Vector<int>, at: Vector<int>) {
    && (match d.gravity
        case Left | TopLeft | BottomLeft => at.x + d.size.x == p.x
        case Right | TopRight | BottomRight => at.x == p.x
        case _ => 0 <= (at.x + (at.x + d.size.x)) - 2 * p.x <= 1)
    && (match d.gravity
        case Top | TopLeft | TopRight => at.y + d.size.y == p.y
        case Bottom | BottomLeft | BottomRight => at.y == p.y
        case _ => 0 <= (at.y + (at.y + d.size.y)) - 2 * p.y <= 1)
  }

  /** With nothing out of range, the popup lies on its gravity's side of its anchor point, moved by the
      offset. */
  lemma LiesOnItsSide(d: PositionerData) returns (p: Vector<int>)
    requires InRange(XAxis(d)) && InRange(YAxis(d))
    ensures IsAnchorPoint(d, p)
    ensures GrowsFrom(d, Vector(p.x + d.offset.x, p.y + d.offset.y), Vector(WrappedIdeal(d).x, WrappedIdeal(d).y))
  {
    p := Vector(d.anchorRect.origin.x + Along(XAxis(d)), d.anchorRect.origin.y + Along(YAxis(d)));
    assert WrappedIdeal(d).x == Ideal(XAxis(d)) && WrappedIdeal(d).y == Ideal(YAxis(d));
    assert d.size.x == 2 * (d.size.x / 2) + d.size.x % 2 && d.size.y == 2 * (d.size.y / 2) + d.size.y % 2;
  }

  method InfiniteGeometry(d: PositionerData) returns (g: Geometry)
    ensures g == Geometry(WrappedIdeal(d), d.size)
    ensures InRange(XAxis(d)) ==> g.origin.x == Ideal(XAxis(d))
    ensures InRange(YAxis(d)) ==> g.origin.y == Ideal(YAxis(d))
  {
    var anchorPoint := AnchorPoint(d);
    var (x, y) := (Wrap(anchorPoint.x + d.offset.x), Wrap(anchorPoint.y + d.offset.y));
    StepsGiveIdeal(d, x, y);

    if GravityHasEdge(d.gravity, Top) {
      y := Wrap(y - Wrap(d.size.y));
    } else if !GravityHasEdge(d.gravity, Bottom) {
      y := Wrap(y - Wrap(d.size.y / 2));
    }
    assert y == WrappedIdeal(d).y;

    if GravityHasEdge(d.gravity, Left) {
      x := Wrap(x - Wrap(d.size.x));
    } else if !GravityHasEdge(d.gravity, Right) {
      x := Wrap(x - Wrap(d.size.x / 2));
    }
    assert x == WrappedIdeal(d).x;

    g := Geometry(Vector(x, y), d.size);
  }

  // ---------------------------------------------------------------------------------------------
  // Mirroring
  // ---------------------------------------------------------------------------------------------

  function Opposite(s: Side): Side {
    match s case Low => High case Middle => Middle case High => Low
  }

  /** The same positioner seen in a mirror at zero: the rectangle is reflected, edges are swapped. */
  function Mirrored(a: Axis): Axis {
    Axis(-(a.at + a.length), a.length, -a.offset, a.size, Opposite(a.anchor), Opposite(a.gravity))
  }

  /** A popup from `at` to `at + size`, reflected. */
  function Reflected(at: int, size: nat): int {
    -(at + size)
  }

  /** Half of an odd length is rounded down on both sides of the mirror. */
  function Rounded(s: Side, length: nat): nat {
    if s == Middle then length % 2 else 0
  }

  /** Mirroring the input mirrors the result up to one pixel: what rounding takes at the popup less what
      it takes at the anchor. It is exact when and only when the two are the same. */
  lemma MirrorLaw(a: Axis)
    ensures var error := Ideal(Mirrored(a)) - Reflected(Ideal(a), a.size);
            && error == Rounded(a.gravity, a.size) - Rounded(a.anchor, a.length)
            && -1 <= error <= 1
            && (error == 0 <==> Rounded(a.gravity, a.size) == Rounded(a.anchor, a.length))
  {
    assert a.length == 2 * (a.length / 2) + a.length % 2;
    assert a.size == 2 * (a.size / 2) + a.size % 2;
  }

  /** For every anchor and gravity at once, it is exact when and only when both lengths are even. */
  lemma MirrorIsExactIffEven(at: int, length: nat, offset: int, size: nat)
    ensures (forall anchor, gravity ::
              var a := Axis(at, length, offset, size, anchor, gravity);
              Ideal(Mirrored(a)) == Reflected(Ideal(a), size))
            <==> length % 2 == 0 && size % 2 == 0
  {
    forall anchor, gravity
      ensures var a := Axis(at, length, offset, size, anchor, gravity);
              Ideal(Mirrored(a)) == Reflected(Ideal(a), size) <==> Rounded(gravity, size) == Rounded(anchor, length)
    {
      MirrorLaw(Axis(at, length, offset, size, anchor, gravity));
    }
    assert Rounded(Middle, size) == size % 2 && Rounded(Low, length) == 0;
    assert Rounded(Low, size) == 0 && Rounded(Middle, length) == length % 2;
    var (p, q) := (Axis(at, length, offset, size, Low, Middle), Axis(at, length, offset, size, Middle, Low));
    assert Ideal(Mirrored(p)) == Reflected(Ideal(p), size) <==> size % 2 == 0;
    assert Ideal(Mirrored(q)) == Reflected(Ideal(q), size) <==> length % 2 == 0;
  }

  predicate Small(a: Axis) {
    -TWO_29 <= a.at <= TWO_29 && a.length <= TWO_29 && -TWO_29 <= a.offset <= TWO_29 && a.size <= TWO_29
  }

  /** Up to 2^29 no step overflows, on either side of the mirror. */
  lemma SmallIsInRange(a: Axis)
    requires Small(a)
    ensures InRange(a) && InRange(Mirrored(a))
  {
  }

  function FlipX(e: Edges): Edges {
    match e
    case Left => Right
    case Right => Left
    case TopLeft => TopRight
    case TopRight => TopLeft
    case BottomLeft => BottomRight
    case BottomRight => BottomLeft
    case _ => e
  }

  function FlipY(e: Edges): Edges {
    match e
    case Top => Bottom
    case Bottom => Top
    case TopLeft => BottomLeft
    case BottomLeft => TopLeft
    case TopRight => BottomRight
    case BottomRight => TopRight
    case _ => e
  }

  /** `d` in an upright mirror: left and right change places. */
  function MirroredX(d: PositionerData): PositionerData
    requires Small(XAxis(d))
  {
    var (o, s) := (d.anchorRect.origin, d.anchorRect.size);
    d.(anchorRect := Geometry(Vector(-(o.x + s.x), o.y), s), offset := Vector(-d.offset.x, d.offset.y),
       anchor := FlipX(d.anchor), gravity := FlipX(d.gravity))
  }

  /** `d` in a lying mirror: top and bottom change places. */
  function MirroredY(d: PositionerData): PositionerData
    requires Small(YAxis(d))
  {
    var (o, s) := (d.anchorRect.origin, d.anchorRect.size);
    d.(anchorRect := Geometry(Vector(o.x, -(o.y + s.y)), s), offset := Vector(d.offset.x, -d.offset.y),
       anchor := FlipY(d.anchor), gravity := FlipY(d.gravity))
  }

  lemma MirrorsAreMirrored(d: PositionerData)
    ensures Small(XAxis(d)) ==> XAxis(MirroredX(d)) == Mirrored(XAxis(d)) && YAxis(MirroredX(d)) == YAxis(d)
    ensures Small(YAxis(d)) ==> YAxis(MirroredY(d)) == Mirrored(YAxis(d)) && XAxis(MirroredY(d)) == XAxis(d)
  {
  }

  /** For all nine anchors and nine gravities and magnitudes up to 2^29, what the code computes for the
      mirrored input is the mirror image of what it computes, within a pixel, and on the other axis the
      same. */
  lemma CodeMirrorsX(d: PositionerData)
    requires Small(XAxis(d))
    ensures var (g, m) := (WrappedIdeal(d), WrappedIdeal(MirroredX(d)));
            && m.y == g.y
            && -1 <= m.x - Reflected(g.x, d.size.x) <= 1
            && (d.anchorRect.size.x % 2 == 0 && d.size.x % 2 == 0 ==> m.x == Reflected(g.x, d.size.x))
  {
    MirrorsAreMirrored(d);
    SmallIsInRange(XAxis(d));
    MirrorLaw(XAxis(d));
  }

  lemma CodeMirrorsY(d: PositionerData)
    requires Small(YAxis(d))
    ensures var (g, m) := (WrappedIdeal(d), WrappedIdeal(MirroredY(d)));
            && m.x == g.x
            && -1 <= m.y - Reflected(g.y, d.size.y) <= 1
            && (d.anchorRect.size.y % 2 == 0 && d.size.y % 2 == 0 ==> m.y == Reflected(g.y, d.size.y))
  {
    MirrorsAreMirrored(d);
    SmallIsInRange(YAxis(d));
    MirrorLaw(YAxis(d));
  }

  // ---------------------------------------------------------------------------------------------
  // Requests
  // ---------------------------------------------------------------------------------------------

  datatype Request =
    | SetSize(width: I32, height: I32)
    | SetAnchorRect(x: I32, y: I32, width: I32, height: I32)
    | SetAnchor(anchor: Edges)
    | SetGravity(gravity: Edges)
    | SetConstraintAdjustment(adjustment: bv32)
    | SetOffset(x: I32, y: I32)
    | SetReactive
    | SetParentSize(width: I32, height: I32)
    | SetParentConfigure(serial: U32)

  function NotNegative(n: I32): U32 {
    if n < 0 then 0 else n
  }

  function After(d: PositionerData, r: Request): PositionerData {
    match r
    case SetSize(w, h) => d.(size := Vector(NotNegative(w), NotNegative(h)), reactive := true)
    case SetAnchorRect(x, y, w, h) =>
      d.(anchorRect := Geometry(Vector(x, y), Vector(NotNegative(w), NotNegative(h))), offset := Vector(0, 0))
    case SetAnchor(a) => d.(anchor := a)
    case SetGravity(g) => d.(gravity := g)
    case SetConstraintAdjustment(c) => d.(constraintAdjustment := c)
    case SetOffset(x, y) => d.(offset := Vector(Wrap(d.offset.x + x), Wrap(d.offset.y + y)))
    case SetReactive => d
    case SetParentSize(w, h) => d.(parentSize := Vector(NotNegative(w), NotNegative(h)))
    case SetParentConfigure(_) => d
  }

  class Positioner {
    var data: PositionerData

    constructor ()
      ensures data == DEFAULT
    {
      data := DEFAULT;
    }

    method Handle(r: Request)
      modifies this
      ensures data == After(old(data), r)
    {
      match r {
        case SetSize(w, h) =>
          data := data.(size := Vector(NotNegative(w), NotNegative(h)));
          data := data.(reactive := true);
        case SetAnchorRect(x, y, w, h) =>
          data := data.(anchorRect := data.anchorRect.(origin := Vector(x, y)));
          data := data.(anchorRect := data.anchorRect.(size := Vector(NotNegative(w), NotNegative(h))));
          data := data.(offset := Vector(0, 0));
        case SetAnchor(a) => data := data.(anchor := a);
        case SetGravity(g) => data := data.(gravity := g);
        case SetConstraintAdjustment(c) => data := data.(constraintAdjustment := c);
        case SetOffset(x, y) =>
          data := data.(offset := data.offset.(x := Wrap(data.offset.x + x)));
          data := data.(offset := data.offset.(y := Wrap(data.offset.y + y)));
        case SetReactive =>
        case SetParentSize(w, h) => data := data.(parentSize := Vector(NotNegative(w), NotNegative(h)));
        case SetParentConfigure(_) =>
      }
    }
  }

  function AfterAll(requests: seq<Request>): PositionerData {
    if requests == [] then DEFAULT else After(AfterAll(requests[..|requests| - 1]), requests[|requests| - 1])
  }

  /** `d` has what `r` asks for; negative lengths count as zero. */
  predicate Shows(d: PositionerData, r: Request) {
    match r
    case SetSize(w, h) => w <= d.size.x && h <= d.size.y && d.size.x in {0, w} && d.size.y in {0, h}
    case SetAnchorRect(x, y, w, h) =>
      var s := d.anchorRect.size;
      d.anchorRect.origin == Vector(x, y) && w <= s.x && h <= s.y && s.x in {0, w} && s.y in {0, h}
    case SetAnchor(a) => d.anchor == a
    case SetGravity(g) => d.gravity == g
    case SetConstraintAdjustment(c) => d.constraintAdjustment == c
    case SetParentSize(w, h) =>
      w <= d.parentSize.x && h <= d.parentSize.y && d.parentSize.x in {0, w} && d.parentSize.y in {0, h}
    case _ => true
  }

  predicate SameKind(a: Request, b: Request) {
    || (a.SetSize? && b.SetSize?)
    || (a.SetAnchorRect? && b.SetAnchorRect?)
    || (a.SetAnchor? && b.SetAnchor?)
    || (a.SetGravity? && b.SetGravity?)
    || (a.SetConstraintAdjustment? && b.SetConstraintAdjustment?)
    || (a.SetParentSize? && b.SetParentSize?)
  }

  /** A request's effect lasts until the next of its kind, whatever else is set in between. */
  lemma {:induction false} LastOfItsKindWins(before: seq<Request>, r: Request, later: seq<Request>)
    requires forall i | 0 <= i < |later| :: !SameKind(r, later[i])
    ensures Shows(AfterAll(before + [r] + later), r)
    decreases |later|
  {
    var all := before + [r] + later;
    if later == [] {
      assert all == before + [r] && all[..|all| - 1] == before;
    } else {
      var n := |later| - 1;
      LastOfItsKindWins(before, r, later[..n]);
      assert all[..|all| - 1] == before + [r] + later[..n] && all[|all| - 1] == later[n];
    }
  }

  /** What the offsets since the last anchor rectangle add up to. */
  function OffsetSum(requests: seq<Request>): Vector<int> {
    if requests == [] then Vector(0, 0)
    else
      var before := OffsetSum(requests[..|requests| - 1]);
      match requests[|requests| - 1]
      case SetAnchorRect(_, _, _, _) => Vector(0, 0)
      case SetOffset(x, y) => Vector(before.x + x, before.y + y)
      case _ => before
  }

  /** Offsets add up, and a new rectangle forgets them. */
  lemma {:induction false} OffsetsAddUp(requests: seq<Request>)
    ensures AfterAll(requests).offset == Vector(Wrap(OffsetSum(requests).x), Wrap(OffsetSum(requests).y))
    decreases |requests|
  {
    if requests != [] {
      var before := requests[..|requests| - 1];
      OffsetsAddUp(before);
      match requests[|requests| - 1]
      case SetOffset(x, y) =>
        WrapInner(OffsetSum(before).x, x);
        WrapInner(OffsetSum(before).y, y);
      case _ =>
    }
  }

  /** xdg-shell has `set_offset` replace the offset. It does exactly when the earlier ones cancel out. */
  lemma OffsetIsReplacedIff(requests: seq<Request>, x: I32, y: I32)
    ensures AfterAll(requests + [SetOffset(x, y)]).offset == Vector(x, y) <==>
              OffsetSum(requests).x % TWO_32 == 0 && OffsetSum(requests).y % TWO_32 == 0
  {
    var all := requests + [SetOffset(x, y)];
    assert all[..|requests|] == requests;
    OffsetsAddUp(all);
    WrapsToIff(OffsetSum(requests).x, x);
    WrapsToIff(OffsetSum(requests).y, y);
  }

  lemma WrapsToIff(n: int, r: I32)
    ensures Wrap(n + r) == r <==> n % TWO_32 == 0
  {
    if n % TWO_32 == 0 {
      WrapIsUnique(r, n + r, n / TWO_32);
    }
  }

  /** xdg-shell has `set_reactive` make a positioner reactive. Here `set_size` does, and nothing else. */
  lemma {:induction false} ReactiveIffSized(requests: seq<Request>)
    ensures AfterAll(requests).reactive <==> exists i :: 0 <= i < |requests| && requests[i].SetSize?
    decreases |requests|
  {
    if requests != [] {
      var n := |requests| - 1;
      ReactiveIffSized(requests[..n]);
      assert forall i | 0 <= i < n :: requests[..n][i] == requests[i];
    }
  }
}
