/** Input aggregation: the `struct_events!` macro of src/phi/events.rs,
    expanded by hand for the key and event set that src/phi/mod.rs tracks
    (Escape, Up, Down, Left, Right, Space, plus the `quit` frame event). */
module Input {
  import opened Wrappers
  import opened Geometry

  /** The tracked keys. */
  datatype Key = Escape | Up | Down | Left | Right | Space

  /** An SDL keycode: one of the tracked keys, or any other key. */
  datatype Keycode = Tracked(key: Key) | Untracked(code: int)

  datatype WindowEventId = Resized(data1: int, data2: int) | OtherWindowEvent

  /** The raw events the pump drains; every kind not listed is `Other`. */
  datatype RawEvent =
    | Window(id: WindowEventId)
    | KeyDown(keycode: Option<Keycode>)
    | KeyUp(keycode: Option<Keycode>)
    | QuitEvent
    | Other

  /** One field per tracked key, as the macro generates. */
  datatype KeyTable<T> = KeyTable(escape: T, up: T, down: T, left: T, right: T, space: T)
  {
    function Get(k: Key): T {
      match k
      case Escape => escape
      case Up => up
      case Down => down
      case Left => left
      case Right => right
      case Space => space
    }

    /** Replace the field of `k`, and only that field. */
    function Set(k: Key, v: T): (r: KeyTable<T>)
      ensures r.Get(k) == v
      ensures forall j :: j != k ==> r.Get(j) == Get(j)
    {
      match k
      case Escape => this.(escape := v)
      case Up => this.(up := v)
      case Down => this.(down := v)
      case Left => this.(left := v)
      case Right => this.(right := v)
      case Space => this.(space := v)
    }
  }

  /** `ImmediateEvents`: what happened during the frame being processed.
      `Some(true)` = just pressed, `Some(false)` = just released. */
  datatype Immediate = Immediate(keys: KeyTable<Option<bool>>, quit: bool, resize: Option<Size>)

  /** `Events`: this frame's snapshot plus the persistent held state. */
  datatype Events = Events(now: Immediate, held: KeyTable<bool>)

  /** `ImmediateEvents::new`: a snapshot in which nothing happened. */
  function NewImmediate(): (r: Immediate)
    ensures forall k :: r.keys.Get(k) == None
    ensures !r.quit && r.resize == None
  {
    Immediate(KeyTable(None, None, None, None, None, None), false, None)
  }

  /** `Events::new`: nothing held, nothing happened. */
  function NewEvents(): (r: Events)
    ensures forall k :: !r.held.Get(k) && r.now.keys.Get(k) == None
    ensures !r.now.quit && r.now.resize == None
  {
    Events(NewImmediate(), KeyTable(false, false, false, false, false, false))
  }

  /** The body of the pump loop for one event. A resize records the
      renderer's output size, not the event's payload. */
  function Handle(e: Events, ev: RawEvent, output: Size): (r: Events)
    // a key's fields change only through an event about that key
    ensures forall j :: KeyEdge(ev, j) == None ==>
              r.held.Get(j) == e.held.Get(j) && r.now.keys.Get(j) == e.now.keys.Get(j)
    // a press records `Some(true)` only on the rising edge
    ensures forall j :: KeyEdge(ev, j) == Some(true) ==>
              r.held.Get(j) && r.now.keys.Get(j) == (if e.held.Get(j) then e.now.keys.Get(j) else Some(true))
    // a release always records `Some(false)`
    ensures forall j :: KeyEdge(ev, j) == Some(false) ==>
              !r.held.Get(j) && r.now.keys.Get(j) == Some(false)
    ensures r.now.quit <==> e.now.quit || ev == QuitEvent
    ensures r.now.resize == (if IsResize(ev) then Some(output) else e.now.resize)
  {
    match ev
    case Window(Resized(_, _)) =>
      e.(now := e.now.(resize := Some(output)))
    case KeyDown(Some(Tracked(k))) =>
      var now := if !e.held.Get(k) then e.now.(keys := e.now.keys.Set(k, Some(true))) else e.now;
      Events(now, e.held.Set(k, true))
    case KeyUp(Some(Tracked(k))) =>
      Events(e.now.(keys := e.now.keys.Set(k, Some(false))), e.held.Set(k, false))
    case QuitEvent =>
      e.(now := e.now.(quit := true))
    case _ => e
  }

  /** Handling every event of `batch` in order. */
  function Drain(e: Events, batch: seq<RawEvent>, output: Size): (r: Events)
    // a quit flag once set stays set
    ensures e.now.quit ==> r.now.quit
    // a key no event of the batch is about keeps both its fields
    ensures forall k :: History(batch, k) == [] ==>
              r.held.Get(k) == e.held.Get(k) && r.now.keys.Get(k) == e.now.keys.Get(k)
    decreases |batch|
  {
    if |batch| == 0 then e
    else Handle(Drain(e, batch[..|batch| - 1], output), batch[|batch| - 1], output)
  }

  /** `Events::pump`: replace the snapshot with a fresh one, then drain the batch. */
  function Pump(e: Events, batch: seq<RawEvent>, output: Size): (r: Events)
    // nothing of the previous snapshot survives: a key without events in the
    // batch reads `None` and keeps its held flag
    ensures forall k :: History(batch, k) == [] ==>
              r.now.keys.Get(k) == None && r.held.Get(k) == e.held.Get(k)
    ensures batch == [] ==> r == Events(NewImmediate(), e.held)
  {
    Drain(Events(NewImmediate(), e.held), batch, output)
  }

  // ---------------------------------------------------------------------
  // Reference semantics per key

  /** The direction of `ev` for key `k`: `Some(true)` for a key-down,
      `Some(false)` for a key-up, `None` when `ev` is not about `k`. */
  function KeyEdge(ev: RawEvent, k: Key): Option<bool> {
    match ev
    case KeyDown(Some(Tracked(j))) => if j == k then Some(true) else None
    case KeyUp(Some(Tracked(j))) => if j == k then Some(false) else None
    case _ => None
  }

  /** The downs (`true`) and ups (`false`) of key `k` in `batch`, in order. */
  function History(batch: seq<RawEvent>, k: Key): seq<bool>
    decreases |batch|
  {
    if |batch| == 0 then []
    else
      var rest := History(batch[..|batch| - 1], k);
      match KeyEdge(batch[|batch| - 1], k)
      case Some(d) => rest + [d]
      case None => rest
  }

  /** Held state after a history: the last event wins. */
  function HeldAfter(held0: bool, hist: seq<bool>): bool {
    if |hist| == 0 then held0 else hist[|hist| - 1]
  }

  /** Snapshot entry after a history: a final release reads `Some(false)`;
      a final press reads `Some(true)` if the key was up at some point
      before it (initially, or released earlier in the batch); presses of a
      key held throughout leave the entry as it was. */
  function NowAfter(now0: Option<bool>, held0: bool, hist: seq<bool>): Option<bool> {
    if |hist| == 0 then now0
    else if !hist[|hist| - 1] then Some(false)
    else if !held0 || false in hist then Some(true)
    else now0
  }

  /** Draining a batch treats each key independently and matches the
      reference: only the events about `k` matter for `k`'s two fields. */
  lemma {:induction false} DrainKey(e: Events, batch: seq<RawEvent>, output: Size, k: Key)
    ensures Drain(e, batch, output).held.Get(k) == HeldAfter(e.held.Get(k), History(batch, k))
    ensures Drain(e, batch, output).now.keys.Get(k) ==
            NowAfter(e.now.keys.Get(k), e.held.Get(k), History(batch, k))
    decreases |batch|
  {
    if |batch| > 0 {
      var init := batch[..|batch| - 1];
      var ev := batch[|batch| - 1];
      DrainKey(e, init, output, k);
      var hist := History(init, k);
      match KeyEdge(ev, k)
      case None =>
        assert History(batch, k) == hist;
      case Some(d) =>
        assert History(batch, k) == hist + [d];
        assert false in hist + [d] <==> false in hist || !d;
    }
  }

  /** The quit flag is set exactly when the batch holds a quit event, and no
      later event clears it. */
  lemma {:induction false} DrainQuit(e: Events, batch: seq<RawEvent>, output: Size)
    ensures Drain(e, batch, output).now.quit <==> e.now.quit || QuitEvent in batch
    decreases |batch|
  {
    if |batch| > 0 {
      var init := batch[..|batch| - 1];
      DrainQuit(e, init, output);
      assert batch == init + [batch[|batch| - 1]];
    }
  }

  predicate IsResize(ev: RawEvent) {
    ev.Window? && ev.id.Resized?
  }

  /** The resize entry holds the output size exactly when the batch holds a
      resize event; otherwise it is left as it was. */
  lemma {:induction false} DrainResize(e: Events, batch: seq<RawEvent>, output: Size)
    ensures (exists i :: 0 <= i < |batch| && IsResize(batch[i])) ==>
              Drain(e, batch, output).now.resize == Some(output)
    ensures (forall i :: 0 <= i < |batch| ==> !IsResize(batch[i])) ==>
              Drain(e, batch, output).now.resize == e.now.resize
    decreases |batch|
  {
    if |batch| > 0 {
      var init := batch[..|batch| - 1];
      DrainResize(e, init, output);
      if exists i :: 0 <= i < |batch| && IsResize(batch[i]) {
        var i :| 0 <= i < |batch| && IsResize(batch[i]);
        if i < |batch| - 1 {
          assert IsResize(init[i]);
        }
      }
    }
  }

  // ---------------------------------------------------------------------
  // Properties of one event and of one pump

  /** A key-down sets held and records a press only on the rising edge;
      nothing else changes. */
  lemma HandleKeyDown(e: Events, k: Key, output: Size)
    ensures Handle(e, KeyDown(Some(Tracked(k))), output).held.Get(k)
    ensures Handle(e, KeyDown(Some(Tracked(k))), output).now.keys.Get(k) ==
            (if e.held.Get(k) then e.now.keys.Get(k) else Some(true))
    ensures forall j :: j != k ==>
              Handle(e, KeyDown(Some(Tracked(k))), output).held.Get(j) == e.held.Get(j)
              && Handle(e, KeyDown(Some(Tracked(k))), output).now.keys.Get(j) == e.now.keys.Get(j)
    ensures Handle(e, KeyDown(Some(Tracked(k))), output).now.quit == e.now.quit
    ensures Handle(e, KeyDown(Some(Tracked(k))), output).now.resize == e.now.resize
  {
  }

  /** A key-up always records a release and clears held; nothing else changes. */
  lemma HandleKeyUp(e: Events, k: Key, output: Size)
    ensures !Handle(e, KeyUp(Some(Tracked(k))), output).held.Get(k)
    ensures Handle(e, KeyUp(Some(Tracked(k))), output).now.keys.Get(k) == Some(false)
    ensures forall j :: j != k ==>
              Handle(e, KeyUp(Some(Tracked(k))), output).held.Get(j) == e.held.Get(j)
              && Handle(e, KeyUp(Some(Tracked(k))), output).now.keys.Get(j) == e.now.keys.Get(j)
    ensures Handle(e, KeyUp(Some(Tracked(k))), output).now.quit == e.now.quit
    ensures Handle(e, KeyUp(Some(Tracked(k))), output).now.resize == e.now.resize
  {
  }

  /** Untracked keys, key events without a keycode, window events other
      than a resize and every other event kind change nothing. */
  lemma HandleIgnores(e: Events, ev: RawEvent, output: Size)
    requires || ev.Other? || ev == Window(OtherWindowEvent)
             || ((ev.KeyDown? || ev.KeyUp?) && !(ev.keycode.Some? && ev.keycode.value.Tracked?))
    ensures Handle(e, ev, output) == e
  {
  }

  /** With an empty batch held is unchanged and the snapshot is empty:
      nothing of the previous snapshot survives. */
  lemma PumpEmpty(e: Events, output: Size)
    ensures Pump(e, [], output).held == e.held
    ensures Pump(e, [], output).now == NewImmediate()
  {
  }

  /** The result of a pump depends on the previous state only through the
      held keys. */
  lemma PumpForgetsSnapshot(e1: Events, e2: Events, batch: seq<RawEvent>, output: Size)
    requires e1.held == e2.held
    ensures Pump(e1, batch, output) == Pump(e2, batch, output)
  {
  }

  /** Per key, the pump's result as the reference states it, starting from
      an empty snapshot. */
  lemma {:induction false} PumpKey(e: Events, batch: seq<RawEvent>, output: Size, k: Key)
    ensures Pump(e, batch, output).held.Get(k) == HeldAfter(e.held.Get(k), History(batch, k))
    ensures Pump(e, batch, output).now.keys.Get(k) == NowAfter(None, e.held.Get(k), History(batch, k))
  {
    DrainKey(Events(NewImmediate(), e.held), batch, output, k);
  }

  /** The quit and resize entries of one pump. */
  lemma {:induction false} PumpFrameEvents(e: Events, batch: seq<RawEvent>, output: Size)
    ensures Pump(e, batch, output).now.quit <==> QuitEvent in batch
    ensures Pump(e, batch, output).now.resize ==
            (if exists i :: 0 <= i < |batch| && IsResize(batch[i]) then Some(output) else None)
  {
    DrainQuit(Events(NewImmediate(), e.held), batch, output);
    DrainResize(Events(NewImmediate(), e.held), batch, output);
  }

  /** Pressing and releasing a key within one batch reads as a release and
      leaves the key up. */
  lemma PressThenRelease(e: Events, k: Key, output: Size)
    ensures Pump(e, [KeyDown(Some(Tracked(k))), KeyUp(Some(Tracked(k)))], output).now.keys.Get(k) == Some(false)
    ensures !Pump(e, [KeyDown(Some(Tracked(k))), KeyUp(Some(Tracked(k)))], output).held.Get(k)
  {}

  /** A key pressed in one batch and still held during the next, empty,
      batch reads as pressed only in the first snapshot. */
  lemma {:induction false} HeldAcrossTwoPumps(e: Events, k: Key, output: Size)
    requires !e.held.Get(k)
    ensures Pump(e, [KeyDown(Some(Tracked(k)))], output).now.keys.Get(k) == Some(true)
    ensures Pump(Pump(e, [KeyDown(Some(Tracked(k)))], output), [], output).now.keys.Get(k) == None
    ensures Pump(Pump(e, [KeyDown(Some(Tracked(k)))], output), [], output).held.Get(k)
  {
    var b := [KeyDown(Some(Tracked(k)))];
    assert b[..0] == [];
    PumpKey(e, b, output, k);
  }
}
