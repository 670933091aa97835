/**
 The rules of the two-state toggle switch, as pure values and functions: where the
 slide knob is drawn, how one touch event changes the widget's touch state, and what a
 whole sequence of touch events does. The class `Ui.ToggleView` is proved to follow them.
 */
module ToggleRules {

  datatype Option<T> = None | Some(value: T)

  /** A decoded image; only its size matters to the widget. */
  datatype Bitmap = Bitmap(width: nat, height: nat)

  /** The identity of a registered state-update listener. */
  type ListenerId = nat

  /** One call `onStateUpdate(state)` made to the listener `listener`. */
  datatype Notification = Notification(listener: ListenerId, state: bool)

  /** Action codes of a motion event, with the platform's values. Every other code
      falls into the default branch of the touch handler. */
  const ACTION_DOWN: int := 0
  const ACTION_UP: int := 1
  const ACTION_MOVE: int := 2

  /** A touch event: its action code and the pointer's x in widget-local pixels. */
  datatype MotionEvent = MotionEvent(action: int, x: real)

  /** The fields the touch handler updates: the on/off state, the last pointer x
      and whether a drag is in progress. */
  datatype TouchState = TouchState(switchState: bool, currentX: real, touchMode: bool)

  /** The touch state after an event, and the listener calls the event made. */
  datatype StepResult = StepResult(next: TouchState, fired: seq<Notification>)

  // ---------------------------------------------------------------------------
  // Knob geometry
  // ---------------------------------------------------------------------------

  /** The rightmost left offset of the knob: placed there, the knob's right edge is the
      background's right edge. It is negative exactly when the knob is wider than the track. */
  function MaxLeft(bgWidth: nat, knobWidth: nat): (maxLeft: int)
    ensures maxLeft + knobWidth == bgWidth
    ensures maxLeft < 0 <==> knobWidth > bgWidth
  {
    bgWidth - knobWidth
  }

  /** The knob's left offset while dragging: centred on the pointer, then pushed back
      inside the track, the left edge first. */
  function DragLeft(currentX: real, bgWidth: nat, knobWidth: nat): (left: real)
    ensures knobWidth <= bgWidth ==> 0.0 <= left <= MaxLeft(bgWidth, knobWidth) as real
    ensures knobWidth as real / 2.0 <= currentX <= bgWidth as real - knobWidth as real / 2.0
            ==> left == currentX - knobWidth as real / 2.0
    ensures knobWidth > bgWidth
            ==> left == if currentX < knobWidth as real / 2.0 then 0.0 else MaxLeft(bgWidth, knobWidth) as real
  {
    var newLeft := currentX - knobWidth as real / 2.0;
    var maxLeft := MaxLeft(bgWidth, knobWidth);
    if newLeft < 0.0 then 0.0
    else if newLeft > maxLeft as real then maxLeft as real
    else newLeft
  }

  /** The knob's left offset at rest: at the right end when on, at the left end when off. */
  function RestLeft(on: bool, bgWidth: nat, knobWidth: nat): (left: int)
    ensures on ==> left + knobWidth == bgWidth
    ensures !on ==> left == 0
    ensures knobWidth <= bgWidth ==> 0 <= left <= MaxLeft(bgWidth, knobWidth)
  {
    if on then MaxLeft(bgWidth, knobWidth) else 0
  }

  /** The knob's left offset in the current touch state (the background is always at 0,0). */
  function KnobLeft(s: TouchState, bgWidth: nat, knobWidth: nat): (left: real)
    ensures knobWidth <= bgWidth ==> 0.0 <= left <= MaxLeft(bgWidth, knobWidth) as real
    ensures s.touchMode ==> left == DragLeft(s.currentX, bgWidth, knobWidth)
    ensures !s.touchMode ==> left == RestLeft(s.switchState, bgWidth, knobWidth) as real
  {
    if s.touchMode then DragLeft(s.currentX, bgWidth, knobWidth)
    else RestLeft(s.switchState, bgWidth, knobWidth) as real
  }

  /** When the knob fits, the dragged knob is the point of the track nearest to the
      pointer-centred position: clamping moves it no further than needed. */
  lemma DragLeftIsNearest(currentX: real, bgWidth: nat, knobWidth: nat, y: real)
    requires knobWidth <= bgWidth
    requires 0.0 <= y <= MaxLeft(bgWidth, knobWidth) as real
    ensures var wanted := currentX - knobWidth as real / 2.0;
            var d := DragLeft(currentX, bgWidth, knobWidth) - wanted;
            var e := y - wanted;
            (if d < 0.0 then -d else d) <= (if e < 0.0 then -e else e)
  {
  }

  /** The dragged knob never moves left when the pointer moves right. */
  lemma DragLeftMonotone(x1: real, x2: real, bgWidth: nat, knobWidth: nat)
    requires knobWidth <= bgWidth
    requires x1 <= x2
    ensures DragLeft(x1, bgWidth, knobWidth) <= DragLeft(x2, bgWidth, knobWidth)
  {
  }

  /** The two resting offsets are exactly the bounds of the drag path, and both are
      reached by dragging: the two ways of placing the knob agree. */
  lemma RestLeftIsDragBound(bgWidth: nat, knobWidth: nat)
    requires knobWidth <= bgWidth
    ensures forall x: real :: RestLeft(false, bgWidth, knobWidth) as real <= DragLeft(x, bgWidth, knobWidth)
                                <= RestLeft(true, bgWidth, knobWidth) as real
    ensures DragLeft(0.0, bgWidth, knobWidth) == RestLeft(false, bgWidth, knobWidth) as real
    ensures DragLeft(bgWidth as real, bgWidth, knobWidth) == RestLeft(true, bgWidth, knobWidth) as real
  {
  }

  // ---------------------------------------------------------------------------
  // Touch state machine
  // ---------------------------------------------------------------------------

  /** The state chosen when the pointer is lifted at x: on exactly when x lies strictly
      right of the background's centre, that is, strictly nearer its right edge than its
      left edge; a lift exactly over the centre turns the switch off. */
  function ReleaseState(x: real, bgWidth: nat): (on: bool)
    ensures on <==> bgWidth as real - x < x - 0.0
    ensures x == bgWidth as real / 2.0 ==> !on
  {
    x > bgWidth as real / 2.0
  }

  /** The effect of one touch event. DOWN starts a drag, MOVE tracks the pointer, UP ends
      the drag, decides the state and notifies the listener when the state flips; other
      actions change nothing. Neither MOVE nor UP looks at whether a drag is in progress.
      UP reads the background's width, so it needs a background. */
  function Step(s: TouchState, e: MotionEvent, background: Option<Bitmap>, listener: Option<ListenerId>): (r: StepResult)
    requires e.action == ACTION_UP ==> background.Some?
    ensures e.action == ACTION_UP
            ==> r.next == TouchState(ReleaseState(e.x, background.value.width), e.x, false)
    ensures e.action == ACTION_DOWN ==> r.next == TouchState(s.switchState, e.x, true)
    ensures e.action == ACTION_MOVE ==> r.next == s.(currentX := e.x)
    ensures e.action !in {ACTION_DOWN, ACTION_UP, ACTION_MOVE} ==> r.next == s
    ensures r.fired != [] <==> e.action == ACTION_UP && listener.Some? && r.next.switchState != s.switchState
    ensures r.fired != [] ==> r.fired == [Notification(listener.value, r.next.switchState)]
  {
    if e.action == ACTION_DOWN then
      StepResult(s.(touchMode := true, currentX := e.x), [])
    else if e.action == ACTION_MOVE then
      StepResult(s.(currentX := e.x), [])
    else if e.action == ACTION_UP then
      var center := background.value.width as real / 2.0;
      var state := e.x > center;
      var fired := if state != s.switchState && listener.Some? then [Notification(listener.value, state)] else [];
      StepResult(TouchState(state, e.x, false), fired)
    else
      StepResult(s, [])
  }

  /** A lifted pointer decides the state even when no drag was in progress. */
  lemma StrayUpDecidesState(s: TouchState, x: real, background: Bitmap, listener: ListenerId)
    requires !s.touchMode
    requires ReleaseState(x, background.width) != s.switchState
    ensures Step(s, MotionEvent(ACTION_UP, x), Some(background), Some(listener)).fired
            == [Notification(listener, !s.switchState)]
  {
  }

  /** When the knob fits, lifting the pointer at either end of the track leaves the knob
      where it was drawn during the drag. */
  lemma ReleaseAtEndDoesNotJump(s: TouchState, x: real, bgWidth: nat, knobWidth: nat, height: nat)
    requires knobWidth <= bgWidth
    requires x <= knobWidth as real / 2.0 || x >= bgWidth as real - knobWidth as real / 2.0
    ensures var after := Step(s, MotionEvent(ACTION_UP, x), Some(Bitmap(bgWidth, height)), None).next;
            KnobLeft(after, bgWidth, knobWidth) == DragLeft(x, bgWidth, knobWidth)
  {
  }

  /** When the knob is narrower than the track, the switch ends on exactly when the knob
      was last drawn past the middle of its travel. */
  lemma ReleaseFollowsKnob(x: real, bgWidth: nat, knobWidth: nat)
    requires knobWidth < bgWidth
    ensures ReleaseState(x, bgWidth) <==> DragLeft(x, bgWidth, knobWidth) > MaxLeft(bgWidth, knobWidth) as real / 2.0
  {
  }

  // ---------------------------------------------------------------------------
  // Sequences of touch events
  // ---------------------------------------------------------------------------

  /** The number of UP events in a sequence. */
  function UpCount(es: seq<MotionEvent>): nat
  {
    if es == [] then 0
    else (if es[0].action == ACTION_UP then 1 else 0) + UpCount(es[1..])
  }

  /** Every UP in the sequence can read the background's width. */
  predicate CanRelease(es: seq<MotionEvent>, background: Option<Bitmap>)
  {
    background.Some? || forall i :: 0 <= i < |es| ==> es[i].action != ACTION_UP
  }

  /** The effect of delivering the events one after another. */
  function Run(s: TouchState, es: seq<MotionEvent>, background: Option<Bitmap>, listener: Option<ListenerId>): (r: StepResult)
    requires CanRelease(es, background)
    ensures |r.fired| <= UpCount(es)
    ensures listener.None? ==> r.fired == []
    decreases |es|
  {
    if es == [] then StepResult(s, [])
    else
      var first := Step(s, es[0], background, listener);
      var rest := Run(first.next, es[1..], background, listener);
      StepResult(rest.next, first.fired + rest.fired)
  }

  /** Delivering two sequences is delivering the first, then the second from where it left off. */
  lemma {:induction false} RunAppend(s: TouchState, a: seq<MotionEvent>, b: seq<MotionEvent>,
                                     background: Option<Bitmap>, listener: Option<ListenerId>)
    requires CanRelease(a + b, background)
    ensures CanRelease(a, background) && CanRelease(b, background)
    ensures var ra := Run(s, a, background, listener);
            var rb := Run(ra.next, b, background, listener);
            Run(s, a + b, background, listener) == StepResult(rb.next, ra.fired + rb.fired)
    decreases |a|
  {
    if !background.Some? {
      forall i | 0 <= i < |a| ensures a[i].action != ACTION_UP {
        assert (a + b)[i] == a[i];
      }
      forall i | 0 <= i < |b| ensures b[i].action != ACTION_UP {
        assert (a + b)[|a| + i] == b[i];
      }
    }
    if a == [] {
      assert a + b == b;
    } else {
      assert (a + b)[1..] == a[1..] + b;
      assert (a + b)[0] == a[0];
      var first := Step(s, a[0], background, listener);
      RunAppend(first.next, a[1..], b, background, listener);
      var ra' := Run(first.next, a[1..], background, listener);
      var rb := Run(ra'.next, b, background, listener);
      assert first.fired + (ra'.fired + rb.fired) == (first.fired + ra'.fired) + rb.fired;
    }
  }

  /** A sequence of MOVE events only tracks the pointer: the last x is recorded and
      nothing else changes, and the listener is not called. */
  lemma {:induction false} MovesOnlyTrack(s: TouchState, moves: seq<MotionEvent>,
                                          background: Option<Bitmap>, listener: Option<ListenerId>)
    requires forall i :: 0 <= i < |moves| ==> moves[i].action == ACTION_MOVE
    ensures CanRelease(moves, background)
    ensures Run(s, moves, background, listener)
            == StepResult(s.(currentX := if moves == [] then s.currentX else moves[|moves| - 1].x), [])
    decreases |moves|
  {
    if moves != [] {
      var next := Step(s, moves[0], background, listener).next;
      MovesOnlyTrack(next, moves[1..], background, listener);
    }
  }

  /** A whole gesture (DOWN, any number of MOVEs, UP) ends the drag with the state decided
      by where the pointer was lifted, and calls the listener exactly once, with that
      state, when it differs from the state before the gesture and a listener is set. */
  lemma GestureNotifiesOnlyOnFlip(s: TouchState, down: real, moves: seq<MotionEvent>, up: real,
                                  background: Bitmap, listener: Option<ListenerId>)
    requires forall i :: 0 <= i < |moves| ==> moves[i].action == ACTION_MOVE
    ensures var es := [MotionEvent(ACTION_DOWN, down)] + moves + [MotionEvent(ACTION_UP, up)];
            var state := ReleaseState(up, background.width);
            var r := Run(s, es, Some(background), listener);
            r.next == TouchState(state, up, false)
            && r.fired == (if state != s.switchState && listener.Some? then [Notification(listener.value, state)] else [])
  {
    var bg := Some(background);
    var downE := MotionEvent(ACTION_DOWN, down);
    var upE := MotionEvent(ACTION_UP, up);
    var dragging := Step(s, downE, bg, listener).next;
    MovesOnlyTrack(dragging, moves, bg, listener);
    RunAppend(s, [downE], moves, bg, listener);
    RunAppend(s, [downE] + moves, [upE], bg, listener);
    var held := Run(s, [downE] + moves, bg, listener);
    assert held.next.switchState == s.switchState && held.fired == [];
  }

  /** The state last reported to the listener, or the initial state when none was. */
  function LastReported(init: bool, log: seq<Notification>): bool
  {
    if log == [] then init else log[|log| - 1].state
  }

  /** Each reported state differs from the one before it (the first from the initial state). */
  predicate Alternating(init: bool, log: seq<Notification>)
    decreases |log|
  {
    log == [] || (log[0].state != init && Alternating(log[0].state, log[1..]))
  }

  /** The listener has heard of every flip from `init` on, in order, and of nothing else:
      the last state it heard of is `final`. */
  predicate InSync(init: bool, log: seq<Notification>, final: bool, listener: ListenerId)
  {
    Alternating(init, log)
    && LastReported(init, log) == final
    && forall i :: 0 <= i < |log| ==> log[i].listener == listener
  }

  /** With a listener set, one event either leaves the state alone and calls nobody, or
      flips it and reports the new state once. */
  lemma StepReportsFlip(s: TouchState, e: MotionEvent, background: Option<Bitmap>, listener: ListenerId)
    requires e.action == ACTION_UP ==> background.Some?
    ensures var r := Step(s, e, background, Some(listener));
            (r.fired == [] && r.next.switchState == s.switchState)
            || (r.fired == [Notification(listener, r.next.switchState)] && r.next.switchState != s.switchState)
  {
  }

  /** Prepending the report of one flip (or nothing, when there was none) keeps the log in sync. */
  lemma InSyncPrepend(init: bool, mid: bool, first: seq<Notification>, rest: seq<Notification>,
                      final: bool, listener: ListenerId)
    requires (first == [] && mid == init) || (first == [Notification(listener, mid)] && mid != init)
    requires InSync(mid, rest, final, listener)
    ensures InSync(init, first + rest, final, listener)
  {
    if first != [] {
      assert (first + rest)[1..] == rest;
    } else {
      assert first + rest == rest;
    }
  }

  /** A suffix of events that can be released can still be released. */
  lemma CanReleaseTail(es: seq<MotionEvent>, background: Option<Bitmap>)
    requires es != [] && CanRelease(es, background)
    ensures CanRelease(es[1..], background)
  {
  }

  /** With a listener set, whatever touch events arrive, the listener hears only of real
      flips, one report per flip, and the last state it heard of is the widget's state. */
  lemma {:induction false} ListenerStaysInSync(s: TouchState, es: seq<MotionEvent>,
                                               background: Option<Bitmap>, listener: ListenerId)
    requires CanRelease(es, background)
    ensures var r := Run(s, es, background, Some(listener));
            InSync(s.switchState, r.fired, r.next.switchState, listener)
    decreases |es|
  {
    if es != [] {
      CanReleaseTail(es, background);
      var first := Step(s, es[0], background, Some(listener));
      var rest := Run(first.next, es[1..], background, Some(listener));
      StepReportsFlip(s, es[0], background, listener);
      ListenerStaysInSync(first.next, es[1..], background, listener);
      InSyncPrepend(s.switchState, first.next.switchState, first.fired, rest.fired, rest.next.switchState, listener);
    }
  }
}
