/**
 The toggle switch widget. Its fields are the view's: the two images, the on/off state,
 the last pointer x, the drag flag and the single listener slot; the platform services it
 uses are recorded in fields of their own (the size it reports when measured, how many
 redraws it asked for, and the calls it made to listeners).
 */
module Ui {
  import opened ToggleRules

  /** One `drawBitmap` call: the image and where its top-left corner goes. */
  datatype DrawCall = DrawCall(image: Bitmap, left: real, top: real)

  class ToggleView {
    var switchBackground: Option<Bitmap>
    var slideButton: Option<Bitmap>
    var switchState: bool
    var currentX: real
    var isTouchMode: bool
    var listener: Option<ListenerId>

    /** The size reported to the platform by the last measure pass. */
    var measuredWidth: nat
    var measuredHeight: nat
    /** Redraw requests (`invalidate()`) made so far. */
    var redraws: nat
    /** Every `onStateUpdate` call made so far, in order. */
    var notifications: seq<Notification>

    /** The fields the touch handler works on, as one value. */
    function Touch(): TouchState
      reads this
    {
      TouchState(switchState, currentX, isTouchMode)
    }

    /** Created from code: no images yet, off, idle, no listener. */
    constructor ()
      ensures switchBackground == None && slideButton == None && listener == None
      ensures Touch() == TouchState(false, 0.0, false)
      ensures measuredWidth == 0 && measuredHeight == 0
      ensures redraws == 0 && notifications == []
    {
      switchBackground, slideButton := None, None;
      switchState, currentX, isTouchMode := false, 0.0, false;
      listener := None;
      measuredWidth, measuredHeight := 0, 0;
      redraws, notifications := 0, [];
    }

    /** Created from layout attributes: the decoded background and knob images (None when
        the resource is missing) and the configured initial state. */
    constructor FromAttributes(background: Option<Bitmap>, knob: Option<Bitmap>, state: bool)
      ensures switchBackground == background && slideButton == knob && listener == None
      ensures Touch() == TouchState(state, 0.0, false)
      ensures measuredWidth == 0 && measuredHeight == 0
      ensures redraws == 0 && notifications == []
    {
      switchState, currentX, isTouchMode := state, 0.0, false;
      listener := None;
      measuredWidth, measuredHeight := 0, 0;
      redraws, notifications := 0, [];
      switchBackground := background;
      slideButton := knob;
    }

    /** Measuring reports exactly the background image's size, whatever the parent offers. */
    method OnMeasure(widthMeasureSpec: int, heightMeasureSpec: int)
      requires switchBackground.Some?
      modifies this`measuredWidth, this`measuredHeight
      ensures measuredWidth == switchBackground.value.width
      ensures measuredHeight == switchBackground.value.height
    {
      measuredWidth, measuredHeight := switchBackground.value.width, switchBackground.value.height;
    }

    /** Drawing puts the background at the origin and the knob on the same row, at the
        offset `KnobLeft` gives: inside the track whenever the knob fits in it. */
    method OnDraw() returns (calls: seq<DrawCall>)
      requires switchBackground.Some? && slideButton.Some?
      ensures var bg, knob := switchBackground.value, slideButton.value;
              calls == [DrawCall(bg, 0.0, 0.0), DrawCall(knob, KnobLeft(Touch(), bg.width, knob.width), 0.0)]
      ensures var bg, knob := switchBackground.value, slideButton.value;
              knob.width <= bg.width ==> 0.0 <= calls[1].left <= (bg.width - knob.width) as real
    {
      var bg, knob := switchBackground.value, slideButton.value;
      calls := [DrawCall(bg, 0.0, 0.0)];
      if isTouchMode {
        var newLeft := currentX - knob.width as real / 2.0;
        var maxLeft := bg.width - knob.width;
        if newLeft < 0.0 {
          newLeft := 0.0;
        } else if newLeft > maxLeft as real {
          newLeft := maxLeft as real;
        }
        calls := calls + [DrawCall(knob, newLeft, 0.0)];
      } else {
        if switchState {
          var newLeft := bg.width - knob.width;
          calls := calls + [DrawCall(knob, newLeft as real, 0.0)];
        } else {
          calls := calls + [DrawCall(knob, 0.0, 0.0)];
        }
      }
    }

    /** Handles one touch event as `Step` says, calls the listener with what `Step` fires,
        asks for one redraw and always consumes the event. */
    method OnTouchEvent(event: MotionEvent) returns (consumed: bool)
      requires event.action == ACTION_UP ==> switchBackground.Some?
      modifies this`switchState, this`currentX, this`isTouchMode, this`redraws, this`notifications
      ensures consumed
      ensures var r := Step(old(Touch()), event, switchBackground, listener);
              Touch() == r.next && notifications == old(notifications) + r.fired
      ensures redraws == old(redraws) + 1
    {
      if event.action == ACTION_DOWN {
        isTouchMode := true;
        currentX := event.x;
      } else if event.action == ACTION_MOVE {
        currentX := event.x;
      } else if event.action == ACTION_UP {
        isTouchMode := false;
        currentX := event.x;
        var center := switchBackground.value.width as real / 2.0;
        var state := currentX > center;
        if state != switchState && listener.Some? {
          notifications := notifications + [Notification(listener.value, state)];
        }
        switchState := state;
      }
      redraws := redraws + 1;
      consumed := true;
    }

    /** Replaces the background image; nothing is redrawn. */
    method SetSwitchBackgroundResource(background: Option<Bitmap>)
      modifies this`switchBackground
      ensures switchBackground == background
    {
      switchBackground := background;
    }

    /** Replaces the knob image; nothing is redrawn. */
    method SetSlideButtonResource(knob: Option<Bitmap>)
      modifies this`slideButton
      ensures slideButton == knob
    {
      slideButton := knob;
    }

    /** Sets the state directly: no listener call and no redraw request. */
    method SetSwitchState(state: bool)
      modifies this`switchState
      ensures switchState == state
      ensures notifications == old(notifications) && redraws == old(redraws)
    {
      switchState := state;
    }

    /** Fills the single listener slot, dropping whichever listener was there. */
    method SetOnSwitchStateUpdateListener(l: Option<ListenerId>)
      modifies this`listener
      ensures listener == l
      ensures notifications == old(notifications)
    {
      listener := l;
    }
  }

  /** A drag from the left end to the right end of a 100-pixel track with a 20-pixel knob. */
  method DragAcrossScenario()
  {
    var view := new ToggleView.FromAttributes(Some(Bitmap(100, 40)), Some(Bitmap(20, 40)), false);
    view.SetOnSwitchStateUpdateListener(Some(1));
    var consumed := view.OnTouchEvent(MotionEvent(ACTION_DOWN, 10.0));
    var calls := view.OnDraw();
    assert calls[1].left == 0.0;
    consumed := view.OnTouchEvent(MotionEvent(ACTION_MOVE, 90.0));
    calls := view.OnDraw();
    assert calls[1].left == 80.0;
    consumed := view.OnTouchEvent(MotionEvent(ACTION_UP, 90.0));
    assert view.switchState && view.notifications == [Notification(1, true)];
    calls := view.OnDraw();
    assert calls[1].left == 80.0;
  }

  /** Taps: lifting exactly over the centre turns the switch off, and a lift with no
      press before it still decides the state. */
  method TapScenario()
  {
    var view := new ToggleView.FromAttributes(Some(Bitmap(100, 40)), Some(Bitmap(20, 40)), true);
    view.SetOnSwitchStateUpdateListener(Some(7));
    var consumed := view.OnTouchEvent(MotionEvent(ACTION_DOWN, 50.0));
    consumed := view.OnTouchEvent(MotionEvent(ACTION_UP, 50.0));
    assert !view.switchState && view.notifications == [Notification(7, false)];
    consumed := view.OnTouchEvent(MotionEvent(ACTION_UP, 60.0));
    assert view.switchState && view.notifications == [Notification(7, false), Notification(7, true)];
    view.SetSwitchState(false);
    assert view.notifications == [Notification(7, false), Notification(7, true)];
    assert view.redraws == 3;
  }
}
