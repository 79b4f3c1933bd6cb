/** The frame loop of `spawn` in src/phi/mod.rs, one iteration at a time.
    The clock is an input: each iteration reads a tick count (milliseconds),
    the events that arrived since the previous iteration and the renderer's
    output size. */
module Phi {
  import opened Wrappers
  import opened Geometry
  import opened Input
  import opened Views

  /** Minimum milliseconds between two processed frames (integer `1000 / 60`). */
  const Interval: nat := 1000 / 60

  /** Length of the FPS window in milliseconds. */
  const Second: nat := 1000

  /** The elapsed time handed to every render, whatever the measured `dt`. */
  const FrameElapsed: real := 0.01

  /** The loop's locals: `before`, `last_second`, `fps`, the current view
      and the input state of the context. */
  datatype LoopState = LoopState(before: nat, lastSecond: nat, fps: nat, view: View, events: Events)

  /** The FPS counter counts frames processed since `lastSecond`; frames are
      at least `Interval` apart and the window is reset once it exceeds a
      second. */
  predicate FpsWindow(s: LoopState) {
    s.fps == 0 || (s.lastSecond <= s.before && Interval * (s.fps - 1) <= s.before - s.lastSecond <= Second)
  }

  predicate Valid(s: LoopState) {
    FpsWindow(s) && ShipSized(s.view)
  }

  /** The state before the first iteration: `before` and `last_second` are
      two tick readings, the counter is zero and the view is the one the
      host's factory built. */
  function Start(init: View, before: nat, lastSecond: nat): (s: LoopState)
    ensures s.fps == 0 && FpsWindow(s)
    ensures ShipSized(init) ==> Valid(s)
    ensures forall k :: !s.events.held.Get(k)
  {
    LoopState(before, lastSecond, 0, init, NewEvents())
  }

  /** What one iteration did. `Delayed` slept `wait` ms and changed nothing;
      `Presented` showed `frame`; `Replaced` installed a new view and showed
      nothing; `Exited` left the loop; `Aborted` panicked. */
  datatype StepResult =
    | Delayed(wait: nat, next: LoopState)
    | Presented(next: LoopState, frame: seq<Draw>)
    | Replaced(next: LoopState)
    | Exited
    | Aborted(fault: Fault)

  predicate Processed(r: StepResult) {
    r.Presented? || r.Replaced?
  }

  /** One iteration of the loop at tick `now`, with `queued` the events
      waiting in the event pump. */
  function Step(s: LoopState, now: nat, queued: seq<RawEvent>, output: Size): (r: StepResult)
    requires s.before <= now && s.lastSecond <= now
    // gating: too early means sleep until the interval is over, state untouched
    ensures r.Delayed? <==> now - s.before < Interval
    ensures r.Delayed? ==> r.next == s && 0 < r.wait && s.before + Interval == now + r.wait
    // a processed frame advances `before` and runs the FPS window
    ensures Processed(r) ==> r.next.before == now
    ensures Processed(r) && now - s.lastSecond > Second ==> r.next.lastSecond == now && r.next.fps == 0
    ensures Processed(r) && now - s.lastSecond <= Second ==> r.next.lastSecond == s.lastSecond && r.next.fps == s.fps + 1
    // the events are pumped before the view renders
    ensures Processed(r) ==> r.next.events == Pump(s.events, queued, output)
    ensures Valid(s) && Processed(r) ==> Valid(r.next)
    ensures Valid(s) && r.Aborted? ==> r.fault == NoRoom && s.view.ShipView? && !ShipFits(output)
  {
    var dt := now - s.before;
    if dt < Interval then Delayed(Interval - dt, s)
    else
      var (lastSecond, fps) := if now - s.lastSecond > Second then (now, 0) else (s.lastSecond, s.fps + 1);
      var events := Pump(s.events, queued, output);
      var next := LoopState(now, lastSecond, fps, s.view, events);
      match Render(s.view, events, output, FrameElapsed)
      case Failure(f) => Aborted(f)
      case Success(Rendered(action, view, frame)) =>
        match action
        case Continue => Presented(next.(view := view), frame)
        case Quit => Exited
        case ChangeView(v) => Replaced(next.(view := v))
  }

  /** The FPS counter (a `u16` in the source) never exceeds 63. */
  lemma FpsBound(s: LoopState)
    requires FpsWindow(s)
    ensures s.fps <= 63
  {}

  /** Applying the view's directive: `Continue` presents the view's draw
      calls, `Quit` exits, `ChangeView` installs the new view alone and
      presents nothing. */
  lemma StepDispatch(s: LoopState, now: nat, queued: seq<RawEvent>, output: Size)
    requires s.before <= now && s.lastSecond <= now
    requires now - s.before >= Interval
    ensures var r := Step(s, now, queued, output);
            var rr := Render(s.view, Pump(s.events, queued, output), output, FrameElapsed);
            && (r.Aborted? <==> rr.Failure?)
            && (r.Exited? <==> rr.Success? && rr.value.action == Quit)
            && (r.Presented? <==> rr.Success? && rr.value.action == Continue)
            && (r.Replaced? <==> rr.Success? && rr.value.action.ChangeView?)
            && (r.Presented? ==> r.frame == rr.value.draws && r.next.view == rr.value.view)
            && (r.Replaced? ==> r.next.view == rr.value.action.next)
  {
  }

  /** A quit event in the drained batch ends the loop on a processed
      iteration, whatever the view and the rest of the input. */
  lemma {:induction false} QuitEventExits(s: LoopState, now: nat, queued: seq<RawEvent>, output: Size)
    requires s.before <= now && s.lastSecond <= now
    requires now - s.before >= Interval
    requires QuitEvent in queued
    ensures Step(s, now, queued, output) == Exited
  {
    PumpFrameEvents(s.events, queued, output);
  }

  /** Pressing Escape (it was up) ends the loop; releasing it does not count
      as a quit request. */
  lemma EscapePressExits(s: LoopState, now: nat, output: Size)
    requires s.before <= now && s.lastSecond <= now
    requires now - s.before >= Interval
    requires !s.events.held.Get(Escape)
    ensures Step(s, now, [KeyDown(Some(Tracked(Escape)))], output) == Exited
    ensures !QuitRequested(Pump(s.events, [KeyUp(Some(Tracked(Escape)))], output).now)
  {}

  /** The ping-pong screens swap on a Space press, and the swap frame
      presents nothing. */
  lemma SpaceSwapsViews(s: LoopState, now: nat, output: Size)
    requires s.before <= now && s.lastSecond <= now
    requires now - s.before >= Interval
    requires s.view == ViewA || s.view == ViewB
    requires !s.events.held.Get(Space)
    ensures var r := Step(s, now, [KeyDown(Some(Tracked(Space)))], output);
            r.Replaced? && r.next.view == (if s.view == ViewA then ViewB else ViewA)
  {}

  /** The view sees the constant elapsed time, not the measured `dt`: two
      processed iterations at different ticks render the same frame and
      leave the same view. */
  lemma RenderIgnoresMeasuredDt(s: LoopState, now1: nat, now2: nat, queued: seq<RawEvent>, output: Size)
    requires s.before <= now1 && s.lastSecond <= now1 && now1 - s.before >= Interval
    requires s.before <= now2 && s.lastSecond <= now2 && now2 - s.before >= Interval
    ensures var r1 := Step(s, now1, queued, output);
            var r2 := Step(s, now2, queued, output);
            && (r1.Exited? <==> r2.Exited?)
            && (r1.Aborted? <==> r2.Aborted?)
            && (r1.Presented? <==> r2.Presented?)
            && (r1.Presented? ==> r1.frame == r2.frame && r1.next.view == r2.next.view)
            && (r1.Replaced? ==> r1.next.view == r2.next.view)
  {
  }

  // ---------------------------------------------------------------------
  // Many iterations

  /** One loop iteration's inputs. */
  datatype Tick = Tick(now: nat, arrived: seq<RawEvent>, output: Size)

  /** How a run over a finite prefix of iterations ends: still looping (with
      the events still queued and the count of presented frames), or exited
      or panicked at iteration `at`. */
  datatype RunEnd =
    | Looping(state: LoopState, pending: seq<RawEvent>, presented: nat)
    | Quitted(at: nat)
    | Crashed(at: nat, fault: Fault)

  /** The clock never goes backwards. */
  predicate ClockOk(s: LoopState, ticks: seq<Tick>) {
    && (forall i, j :: 0 <= i <= j < |ticks| ==> ticks[i].now <= ticks[j].now)
    && (|ticks| > 0 ==> s.before <= ticks[0].now && s.lastSecond <= ticks[0].now)
  }

  function Later(r: RunEnd, presentedNow: bool): RunEnd {
    match r
    case Looping(s, p, n) => Looping(s, p, if presentedNow then n + 1 else n)
    case Quitted(i) => Quitted(i + 1)
    case Crashed(i, f) => Crashed(i + 1, f)
  }

  /** The loop over a sequence of iterations. Events that arrive while the
      loop is sleeping stay queued and are drained by the next processed
      iteration. */
  function Run(s: LoopState, pending: seq<RawEvent>, ticks: seq<Tick>): (r: RunEnd)
    requires Valid(s) && ClockOk(s, ticks)
    ensures r.Looping? ==> Valid(r.state) && r.presented <= |ticks|
    ensures r.Looping? && |ticks| > 0 ==> r.state.before <= ticks[|ticks| - 1].now
    ensures r.Quitted? ==> r.at < |ticks|
    ensures r.Crashed? ==> r.at < |ticks| && r.fault == NoRoom && !ShipFits(ticks[r.at].output)
    decreases |ticks|
  {
    if |ticks| == 0 then Looping(s, pending, 0)
    else
      var t := ticks[0];
      var queued := pending + t.arrived;
      var r0 := Step(s, t.now, queued, t.output);
      if r0.Exited? then Quitted(0)
      else if r0.Aborted? then Crashed(0, r0.fault)
      else
        ClockAdvances(s, r0.next, ticks);
        var rest := Run(r0.next, if r0.Delayed? then queued else [], ticks[1..]);
        Later(rest, r0.Presented?)
  }

  /** The rest of the ticks still read the clock forwards from a state whose
      readings are no later than the first tick. */
  lemma ClockAdvances(s: LoopState, next: LoopState, ticks: seq<Tick>)
    requires ClockOk(s, ticks) && |ticks| > 0
    requires next.before <= ticks[0].now && next.lastSecond <= ticks[0].now
    ensures ClockOk(next, ticks[1..])
  {}

  /** While the movable region has room for the ship, the loop never panics. */
  lemma RunNeverCrashesWithRoom(s: LoopState, pending: seq<RawEvent>, ticks: seq<Tick>)
    requires Valid(s) && ClockOk(s, ticks)
    requires forall i :: 0 <= i < |ticks| ==> ShipFits(ticks[i].output)
    ensures !Run(s, pending, ticks).Crashed?
  {
  }
}
