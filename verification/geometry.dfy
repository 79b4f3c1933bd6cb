/** Rectangles and the clamping used by the ship screen (src/views/mod.rs). */
module Geometry {
  import opened Wrappers

  /** An axis-aligned box. The source's `f64` coordinates are modelled as
      exact reals, so equalities proved here hold for reals, not for IEEE doubles. */
  datatype Rectangle = Rectangle(x: real, y: real, w: real, h: real)

  /** The renderer's output size in pixels (a pair of `u32` in the source). */
  datatype Size = Size(w: nat, h: nat)

  /** The places where a frame panics. */
  datatype Fault =
    | NegativeSize   // the `assert!` in `to_sdl`
    | NoRoom         // `move_inside(..).unwrap()` on `None`

  /** `inner` lies fully inside `outer` on both axes. */
  predicate Inside(inner: Rectangle, outer: Rectangle) {
    && outer.x <= inner.x && inner.x + inner.w <= outer.x + outer.w
    && outer.y <= inner.y && inner.y + inner.h <= outer.y + outer.h
  }

  /** The nearest point of `[lo, hi]` to `v`: the reference for clamping. */
  function Clamp(v: real, lo: real, hi: real): (c: real)
    requires lo <= hi
    ensures lo <= c <= hi
    ensures lo <= v <= hi ==> c == v
    ensures forall p :: lo <= p <= hi ==> Dist(c, v) <= Dist(p, v)
  {
    if v < lo then lo else if v > hi then hi else v
  }

  function Abs(v: real): real {
    if v < 0.0 then -v else v
  }

  /** Distance between two points of a line. */
  function Dist(a: real, b: real): real {
    Abs(a - b)
  }

  /** One axis of `move_inside`: pin to the near edge when the box starts
      before it, else pin the far edge when the box reaches or passes it,
      else keep the position. */
  function PlaceOnAxis(pos: real, size: real, lo: real, span: real): real {
    if pos < lo then lo
    else if pos + size >= lo + span then lo + span - size
    else pos
  }

  /** `Rectangle::move_inside`: `None` when the box is wider or taller than
      the parent, otherwise the box moved (size kept) into the parent. */
  function MoveInside(r: Rectangle, parent: Rectangle): (res: Option<Rectangle>)
    ensures res.None? <==> r.w > parent.w || r.h > parent.h
    ensures res.Some? ==> res.value.w == r.w && res.value.h == r.h
    ensures res.Some? ==> Inside(res.value, parent)
    ensures res.Some? && parent.x <= r.x && r.x + r.w <= parent.x + parent.w ==> res.value.x == r.x
    ensures res.Some? && parent.y <= r.y && r.y + r.h <= parent.y + parent.h ==> res.value.y == r.y
  {
    if r.w > parent.w || r.h > parent.h then None
    else Some(Rectangle(
      PlaceOnAxis(r.x, r.w, parent.x, parent.w),
      PlaceOnAxis(r.y, r.h, parent.y, parent.h),
      r.w, r.h))
  }

  /** Clamping is the nearest-point projection on each axis: the result
      coordinate is `Clamp` of the old one into the admissible range, so no
      admissible position is closer to where the box was. */
  lemma MoveInsideIsNearest(r: Rectangle, parent: Rectangle)
    requires r.w <= parent.w && r.h <= parent.h
    ensures MoveInside(r, parent).Some?
    ensures MoveInside(r, parent).value.x == Clamp(r.x, parent.x, parent.x + parent.w - r.w)
    ensures MoveInside(r, parent).value.y == Clamp(r.y, parent.y, parent.y + parent.h - r.h)
    ensures forall q: Rectangle :: q.w == r.w && q.h == r.h && Inside(q, parent) ==>
              Dist(MoveInside(r, parent).value.x, r.x) <= Dist(q.x, r.x)
              && Dist(MoveInside(r, parent).value.y, r.y) <= Dist(q.y, r.y)
  {
  }

  /** Clamping an already clamped box changes nothing. */
  lemma MoveInsideIdempotent(r: Rectangle, parent: Rectangle)
    requires MoveInside(r, parent).Some?
    ensures MoveInside(MoveInside(r, parent).value, parent) == MoveInside(r, parent)
  {
  }

  /** A box already inside the parent (flush edges included) is returned as is. */
  lemma MoveInsideKeepsContained(r: Rectangle, parent: Rectangle)
    requires Inside(r, parent)
    ensures MoveInside(r, parent) == Some(r)
  {
  }

  /** The check `to_sdl` makes before converting: it panics on a negative
      width or height. The integer conversion itself is not modelled, so the
      drawable form is the rectangle unchanged. */
  function ToSdl(r: Rectangle): (res: Result<Rectangle, Fault>)
    ensures res.Success? <==> r.w >= 0.0 && r.h >= 0.0
    ensures res.Success? ==> res.value == r
    ensures res.Failure? ==> res.error == NegativeSize
  {
    if r.w >= 0.0 && r.h >= 0.0 then Success(r) else Failure(NegativeSize)
  }
}
