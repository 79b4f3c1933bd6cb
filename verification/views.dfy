/** The screens of src/views/mod.rs and the `View`/`ViewAction` contract of
    src/phi/mod.rs. The boxed trait object is a closed enum of the four
    screens; a screen's render is a pure function returning its directive,
    its own new state and the draw calls it issued. */
module Views {
  import opened Wrappers
  import opened Geometry
  import opened Input

  const PlayerSpeed: real := 180.0

  /** The diagonal factor `1/sqrt(2)`. The proofs use only that it is
      positive and that `2 * DiagonalFactor^2 <= 1`; the literal is a
      16-digit value just below `1/sqrt(2)`. */
  const DiagonalFactor: real := 0.7071067811865475

  /** The ship's movable region takes this fraction of the output width. */
  const RegionWidthShare: real := 0.70

  datatype View =
    | DefaultView
    | ViewA
    | ViewB
    | ShipView(player: Rectangle)

  /** What the loop does after a render (`ViewAction::None` is `Continue`). */
  datatype ViewAction = Continue | Quit | ChangeView(next: View)

  datatype Color = Color(r: nat, g: nat, b: nat)

  /** Renderer calls a screen issues; their effect on pixels is not modelled. */
  datatype Draw = SetDrawColor(color: Color) | Clear | FillRect(rect: Rectangle)

  /** A screen's render outcome: the directive, the screen's own state
      afterwards and the draw calls in the order they were issued. */
  datatype Rendered = Rendered(action: ViewAction, view: View, draws: seq<Draw>)

  /** `ShipView::new`: the ship starts at (64, 64) with size 32 x 32. */
  function NewShipView(): (v: View)
    ensures v.ShipView? && ShipSized(v)
  {
    ShipView(Rectangle(64.0, 64.0, 32.0, 32.0))
  }

  /** The ship keeps the size it was created with. */
  predicate ShipSized(v: View) {
    v.ShipView? ==> v.player.w == 32.0 && v.player.h == 32.0
  }

  /** The movable region has room for the 32 x 32 ship. */
  predicate ShipFits(output: Size) {
    32.0 <= output.w as real * RegionWidthShare && 32.0 <= output.h as real
  }

  /** The check every screen makes first: a quit event, or Escape pressed
      this frame. An Escape release does not count. */
  predicate QuitRequested(now: Immediate) {
    now.quit || now.keys.Get(Escape) == Some(true)
  }

  /** The ship moves diagonally when exactly one key of each opposing pair is held. */
  predicate Diagonal(held: KeyTable<bool>) {
    (held.Get(Up) != held.Get(Down)) && (held.Get(Left) != held.Get(Right))
  }

  /** Distance moved along a moving axis during `elapsed` seconds. */
  function Stride(held: KeyTable<bool>, elapsed: real): real {
    (if Diagonal(held) then DiagonalFactor else 1.0) * PlayerSpeed * elapsed
  }

  /** Signed step on one axis: opposing keys cancel. */
  function AxisStep(towardLow: bool, towardHigh: bool, stride: real): real {
    if towardLow == towardHigh then 0.0
    else if towardLow then -stride
    else stride
  }

  /** `(dx, dy)` from the held arrow keys. */
  function Displacement(held: KeyTable<bool>, elapsed: real): (d: (real, real))
    // opposing keys cancel
    ensures held.Get(Left) == held.Get(Right) ==> d.0 == 0.0
    ensures held.Get(Up) == held.Get(Down) ==> d.1 == 0.0
    // when both axes move they move equally far
    ensures d.0 != 0.0 && d.1 != 0.0 ==> Abs(d.0) == Abs(d.1)
  {
    var s := Stride(held, elapsed);
    (AxisStep(held.Get(Left), held.Get(Right), s), AxisStep(held.Get(Up), held.Get(Down), s))
  }

  /** The region the ship must stay in: 70% of the output width, full height. */
  function MovableRegion(output: Size): Rectangle {
    Rectangle(0.0, 0.0, output.w as real * RegionWidthShare, output.h as real)
  }

  /** `ShipView::render` once the quit check has passed: draw the ship where
      it is, move it by the held keys, clamp it into the movable region. */
  function RenderShip(player: Rectangle, held: KeyTable<bool>, output: Size, elapsed: real): (r: Result<Rendered, Fault>)
    ensures r.Failure? <==> player.w < 0.0 || player.h < 0.0
                            || player.w > MovableRegion(output).w || player.h > MovableRegion(output).h
    ensures r.Failure? ==> r.error == (if player.w < 0.0 || player.h < 0.0 then NegativeSize else NoRoom)
    ensures r.Success? ==>
              && r.value.action == Continue && r.value.view.ShipView?
              && r.value.view.player.w == player.w && r.value.view.player.h == player.h
              && Inside(r.value.view.player, MovableRegion(output))
  {
    var draws := [SetDrawColor(Color(0, 0, 0)), Clear, SetDrawColor(Color(200, 200, 50))];
    match ToSdl(player)
    case Failure(f) => Failure(f)
    case Success(drawable) =>
      var d := Displacement(held, elapsed);
      var moved := player.(x := player.x + d.0, y := player.y + d.1);
      match MoveInside(moved, MovableRegion(output))
      case None => Failure(NoRoom)
      case Some(p) => Success(Rendered(Continue, ShipView(p), draws + [FillRect(drawable)]))
  }

  /** `View::render` for each screen. */
  function Render(v: View, ev: Events, output: Size, elapsed: real): (r: Result<Rendered, Fault>)
    // the quit check comes first: no switch, no movement, no drawing
    ensures QuitRequested(ev.now) ==> r == Success(Rendered(Quit, v, []))
    ensures r.Success? && r.value.action == Quit ==> QuitRequested(ev.now)
    // only the two ping-pong screens switch, on a Space press
    ensures (r.Success? && r.value.action.ChangeView?) <==>
            !QuitRequested(ev.now) && (v.ViewA? || v.ViewB?) && ev.now.keys.Get(Space) == Some(true)
    ensures r.Success? && r.value.action == ChangeView(ViewB) ==> v == ViewA
    ensures r.Success? && r.value.action == ChangeView(ViewA) ==> v == ViewB
    ensures r.Success? && r.value.action.ChangeView? ==> r.value.action.next in {ViewA, ViewB}
    // only the ship screen changes its own state or can panic
    ensures !v.ShipView? ==> r.Success? && r.value.view == v
    ensures r.Success? && v.ShipView? ==> r.value.view.ShipView?
    ensures ShipSized(v) && r.Success? ==> ShipSized(r.value.view)
    // a sized ship fails exactly when the movable region is too small for it
    ensures ShipSized(v) ==> (r.Failure? <==> v.ShipView? && !QuitRequested(ev.now) && !ShipFits(output))
    ensures r.Failure? && ShipSized(v) ==> r.error == NoRoom
  {
    if QuitRequested(ev.now) then Success(Rendered(Quit, v, []))
    else
      match v
      case DefaultView =>
        Success(Rendered(Continue, v, [SetDrawColor(Color(0, 0, 0)), Clear]))
      case ViewA =>
        if ev.now.keys.Get(Space) == Some(true) then Success(Rendered(ChangeView(ViewB), v, []))
        else Success(Rendered(Continue, v, [SetDrawColor(Color(255, 0, 0)), Clear]))
      case ViewB =>
        if ev.now.keys.Get(Space) == Some(true) then Success(Rendered(ChangeView(ViewA), v, []))
        else Success(Rendered(Continue, v, [SetDrawColor(Color(0, 0, 255)), Clear]))
      case ShipView(p) =>
        RenderShip(p, ev.held, output, elapsed)
  }

  // ---------------------------------------------------------------------
  // Ship movement

  /** Signs of the displacement: zero for both or neither of two opposing
      keys, negative toward left/up, positive toward right/down. */
  lemma DisplacementSigns(held: KeyTable<bool>, elapsed: real)
    requires elapsed > 0.0
    ensures Displacement(held, elapsed).0 == 0.0 <==> held.Get(Left) == held.Get(Right)
    ensures Displacement(held, elapsed).0 < 0.0 <==> held.Get(Left) && !held.Get(Right)
    ensures Displacement(held, elapsed).0 > 0.0 <==> held.Get(Right) && !held.Get(Left)
    ensures Displacement(held, elapsed).1 == 0.0 <==> held.Get(Up) == held.Get(Down)
    ensures Displacement(held, elapsed).1 < 0.0 <==> held.Get(Up) && !held.Get(Down)
    ensures Displacement(held, elapsed).1 > 0.0 <==> held.Get(Down) && !held.Get(Up)
  {}

  /** The diagonal factor applies exactly when both axes move; then both
      axes move by the same amount, and a diagonal step is never longer than
      a straight one. */
  lemma DiagonalNormalised(held: KeyTable<bool>, elapsed: real)
    requires elapsed > 0.0
    ensures Diagonal(held) <==> Displacement(held, elapsed).0 != 0.0 && Displacement(held, elapsed).1 != 0.0
    ensures Diagonal(held) ==>
              Abs(Displacement(held, elapsed).0) == DiagonalFactor * PlayerSpeed * elapsed
              && Abs(Displacement(held, elapsed).1) == DiagonalFactor * PlayerSpeed * elapsed
    ensures !Diagonal(held) ==>
              Abs(Displacement(held, elapsed).0) in {0.0, PlayerSpeed * elapsed}
              && Abs(Displacement(held, elapsed).1) in {0.0, PlayerSpeed * elapsed}
    ensures var d := Displacement(held, elapsed);
            d.0 * d.0 + d.1 * d.1 <= (PlayerSpeed * elapsed) * (PlayerSpeed * elapsed)
  {}

  /** What the ship screen does on a frame without a quit request: it
      succeeds exactly when the ship fits the movable region, keeps its size,
      ends inside the region, and lands where the keys moved it whenever that
      spot is already inside. */
  lemma ShipFrame(p: Rectangle, ev: Events, output: Size, elapsed: real)
    requires !QuitRequested(ev.now)
    requires p.w >= 0.0 && p.h >= 0.0
    ensures var r := Render(ShipView(p), ev, output, elapsed);
            var region := MovableRegion(output);
            && (r.Success? <==> p.w <= region.w && p.h <= region.h)
            && (r.Failure? ==> r.error == NoRoom)
            && (r.Success? ==>
                  && r.value.action == Continue
                  && r.value.view.player.w == p.w && r.value.view.player.h == p.h
                  && Inside(r.value.view.player, region)
                  && r.value.draws[|r.value.draws| - 1] == FillRect(p))
    ensures var r := Render(ShipView(p), ev, output, elapsed);
            var d := Displacement(ev.held, elapsed);
            var moved := p.(x := p.x + d.0, y := p.y + d.1);
            Inside(moved, MovableRegion(output)) ==> r == Success(Rendered(Continue, ShipView(moved), [SetDrawColor(Color(0, 0, 0)), Clear, SetDrawColor(Color(200, 200, 50)), FillRect(p)]))
  {
    var d := Displacement(ev.held, elapsed);
    var moved := p.(x := p.x + d.0, y := p.y + d.1);
    if Inside(moved, MovableRegion(output)) {
      MoveInsideKeepsContained(moved, MovableRegion(output));
      var draws := [SetDrawColor(Color(0, 0, 0)), Clear, SetDrawColor(Color(200, 200, 50))];
      assert draws + [FillRect(p)] ==
             [SetDrawColor(Color(0, 0, 0)), Clear, SetDrawColor(Color(200, 200, 50)), FillRect(p)];
    }
  }

  /** The 32 x 32 ship survives a frame exactly when the region is at least
      32 x 32, and then stays within [0, 0.7 w] x [0, h]. */
  lemma ShipFrameSized(v: View, ev: Events, output: Size, elapsed: real)
    requires v.ShipView? && ShipSized(v) && !QuitRequested(ev.now)
    ensures var r := Render(v, ev, output, elapsed);
            && (r.Success? <==> ShipFits(output))
            && (r.Success? ==>
                  && r.value.view.player.w == 32.0 && r.value.view.player.h == 32.0
                  && 0.0 <= r.value.view.player.x <= output.w as real * RegionWidthShare - 32.0
                  && 0.0 <= r.value.view.player.y <= output.h as real - 32.0)
  {
  }

  /** Holding Up and Left moves the ship by
      (-S*T*DiagonalFactor, -S*T*DiagonalFactor), not (-S*T, -S*T). */
  lemma UpLeftIsDiagonal(held: KeyTable<bool>, elapsed: real)
    requires held.Get(Up) && !held.Get(Down) && held.Get(Left) && !held.Get(Right)
    ensures Displacement(held, elapsed) ==
            (-(DiagonalFactor * PlayerSpeed * elapsed), -(DiagonalFactor * PlayerSpeed * elapsed))
  {
    assert Diagonal(held);
    assert Stride(held, elapsed) == DiagonalFactor * PlayerSpeed * elapsed;
  }
}
