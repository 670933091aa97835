# ToggleView in Dafny

A model of `ToggleView`, an Android view that draws a two-state switch from two images
(a background track and a slide knob) and lets the user drag the knob. The widget keeps an
on/off state, the last pointer x and a drag flag. It reports state flips to a single
listener.

- `toggle_rules.dfy`, module `ToggleRules`, holds the rules as pure functions:
  - the knob's left offset while dragging (`DragLeft`), at rest (`RestLeft`) and in general (`KnobLeft`);
  - the release threshold (`ReleaseState`);
  - the effect of one touch event (`Step`) and of a sequence of them (`Run`);
  - lemmas about whole gestures and about the listener.
- `ui.dfy`, module `Ui`, holds the class `ToggleView`. Its fields are the view's own:
  `switchBackground`, `slideButton`, `switchState`, `currentX`, `isTouchMode` and the listener
  slot. Its methods are the view's `onMeasure`, `onDraw`, `onTouchEvent` and setters.
  `OnDraw` is proved to place the knob where `KnobLeft` says, and `OnTouchEvent` to change
  the touch fields and call the listener as `Step` says. `OnMeasure`, the setters and the
  constructors state their effect directly. Two client methods,
  `DragAcrossScenario` and `TapScenario`, show what a caller can conclude from those contracts.

How the platform is represented:

- An image is a `Bitmap(width, height)`. A missing image (Java `null`) is `None`.
- A touch event is an action code plus an x coordinate of type `real`. The codes use the
  platform's values: DOWN = 0, UP = 1, MOVE = 2. Every other code takes the handler's
  default branch.
- A listener is an identity in an optional slot. Each `onStateUpdate` call is appended to
  the log `notifications` as `Notification(listener, state)`.
- `invalidate()` adds one to the `redraws` counter.
- `setMeasuredDimension` sets `measuredWidth` and `measuredHeight`.
- The canvas is the list of `drawBitmap` calls that `OnDraw` returns.

The widget dereferences its images without checking for `null` in three operations: measuring,
drawing, and reading the background width when the pointer is lifted. Each place becomes a
precondition. `OnMeasure` requires a background. `OnDraw` requires both images.
`OnTouchEvent` requires a background only for an UP event.

Two consequences of the code as written:

- `onTouchEvent` never tests `isTouchMode` (ToggleView.java:137-163). So MOVE and UP are
  handled whether or not a drag is in progress, and an UP with no DOWN before it still decides
  the state and can notify the listener (`StrayUpDecidesState`).
- If the knob is wider than the background, `maxLeft` (ToggleView.java:109) is negative, and
  the dragged offset is 0 or that negative value. So the clamp bound holds only when the knob
  fits, and `DragLeft` says which of the two values is chosen.

## Model

| member | source | states |
|---|---|---|
| `ToggleRules.DragLeft` | java/com/xu/toggleview/ui/ToggleView.java:102-116 | while dragging, the knob's offset lies in `[0, bgWidth - knobWidth]` when the knob fits; it is exactly `currentX - knobWidth/2` when the pointer is at least half a knob from both ends; for a knob wider than the track it is 0 left of `knobWidth/2` and `bgWidth - knobWidth` from there on |
| `ToggleRules.MaxLeft` | java/com/xu/toggleview/ui/ToggleView.java:109 | the rightmost knob offset puts the knob's right edge on the background's right edge, and is negative exactly when the knob is wider than the background |
| `ToggleRules.RestLeft` | java/com/xu/toggleview/ui/ToggleView.java:121-126 | at rest the knob sits flush with the background's right edge when on and at offset 0 when off, inside the track whenever the knob fits |
| `ToggleRules.ReleaseState` | java/com/xu/toggleview/ui/ToggleView.java:152-155 | a lift turns the switch on exactly when the pointer is strictly nearer the background's right edge than its left edge; a lift exactly over the centre turns it off |
| `ToggleRules.KnobLeft` | java/com/xu/toggleview/ui/ToggleView.java:102-127 | the knob offset follows the drag rule while dragging and the resting rule otherwise, and is always inside the track when the knob fits |
| `ToggleRules.DragLeftIsNearest` | java/com/xu/toggleview/ui/ToggleView.java:106-116 | the clamped offset is the point of `[0, bgWidth - knobWidth]` nearest to the pointer-centred offset |
| `ToggleRules.DragLeftMonotone` | java/com/xu/toggleview/ui/ToggleView.java:106-116 | moving the pointer right never moves the dragged knob left |
| `ToggleRules.RestLeftIsDragBound` | java/com/xu/toggleview/ui/ToggleView.java:109-126 | the resting offsets (0 when off, `bgWidth - knobWidth` when on) are the lower and upper bounds of every dragged offset, and dragging reaches both |
| `ToggleRules.Step` | java/com/xu/toggleview/ui/ToggleView.java:136-167 | DOWN sets the drag flag and x; MOVE sets only x; UP clears the flag, sets x and sets the state to `x > bgWidth/2`; other actions change nothing; the listener is called, once and with the new state, exactly when the event is UP, a listener is set and the state flips |
| `ToggleRules.StrayUpDecidesState` | java/com/xu/toggleview/ui/ToggleView.java:147-162 | an UP while no drag is in progress still decides the state and notifies the listener of a flip |
| `ToggleRules.ReleaseAtEndDoesNotJump` | java/com/xu/toggleview/ui/ToggleView.java:119-155 | lifting the pointer within half a knob of either end leaves the knob drawn where it was during the drag |
| `ToggleRules.ReleaseFollowsKnob` | java/com/xu/toggleview/ui/ToggleView.java:152-155 | when the knob is narrower than the track, the switch ends on exactly when the dragged knob is past the middle of its travel |
| `ToggleRules.Run` | java/com/xu/toggleview/ui/ToggleView.java:136-174 | over any sequence of events, the listener is called at most once per UP event, and never when the slot is empty |
| `ToggleRules.MovesOnlyTrack` | java/com/xu/toggleview/ui/ToggleView.java:143-146 | a run of MOVE events records the last x, changes nothing else and calls no listener |
| `ToggleRules.GestureNotifiesOnlyOnFlip` | java/com/xu/toggleview/ui/ToggleView.java:136-174 | a gesture (DOWN, any number of MOVEs, UP) ends idle at the lift x, with the state decided by the lift x; it calls the listener exactly once with that state if the state flipped and a listener is set, and not at all otherwise |
| `ToggleRules.StepReportsFlip` | java/com/xu/toggleview/ui/ToggleView.java:155-162 | with a listener set, an event either keeps the state and calls nobody, or flips the state and reports the new state once |
| `ToggleRules.ListenerStaysInSync` | java/com/xu/toggleview/ui/ToggleView.java:157-162 | with a listener set, for any sequence of events every report goes to that listener, each report differs from the one before it (the first from the starting state), and the last state reported is the widget's state |
| `Ui.ToggleView.constructor` | java/com/xu/toggleview/ui/ToggleView.java:42-46 | a view created from code has no images and no listener, starts off and idle at x = 0, and has measured size 0 by 0 |
| `Ui.ToggleView.FromAttributes` | java/com/xu/toggleview/ui/ToggleView.java:53-68 | a view created from layout attributes takes the decoded images and the configured initial state, and starts idle with no listener and measured size 0 by 0 |
| `Ui.ToggleView.OnMeasure` | java/com/xu/toggleview/ui/ToggleView.java:88-91 | the measured size is exactly the background image's width and height |
| `Ui.ToggleView.OnDraw` | java/com/xu/toggleview/ui/ToggleView.java:96-129 | draws the background at (0, 0) and the knob at (`KnobLeft`, 0); the knob offset is within `[0, bgWidth - knobWidth]` when the knob fits |
| `Ui.ToggleView.OnTouchEvent` | java/com/xu/toggleview/ui/ToggleView.java:136-174 | the new touch fields are `Step`'s result; the notification log grows by exactly what `Step` fires; exactly one redraw is requested; the event is always consumed |
| `Ui.ToggleView.SetSwitchBackgroundResource` | java/com/xu/toggleview/ui/ToggleView.java:181-184 | replaces the background image and changes nothing else |
| `Ui.ToggleView.SetSlideButtonResource` | java/com/xu/toggleview/ui/ToggleView.java:191-194 | replaces the knob image and changes nothing else |
| `Ui.ToggleView.SetSwitchState` | java/com/xu/toggleview/ui/ToggleView.java:200-202 | sets the state without calling the listener or requesting a redraw |
| `Ui.ToggleView.SetOnSwitchStateUpdateListener` | java/com/xu/toggleview/ui/ToggleView.java:211-213 | replaces the single listener slot without calling anyone |

## Left out

- Resource lookup and bitmap decoding (ToggleView.java:183, 193) are platform calls. The
  setters and `FromAttributes` take the decoded image, or `None` for a missing resource.
- Reading the layout attributes (ToggleView.java:59-64) is platform parsing. `FromAttributes`
  takes its results as parameters.
- The third constructor (ToggleView.java:76-80) reads no attributes. It behaves as the unnamed
  constructor, so it is not modelled separately.
- `Paint` setup (ToggleView.java:82-84) is not modelled. Neither is the drawing itself: only
  the `drawBitmap` calls are returned.
- `System.out.println` logging is left out.
- `invalidate()` scheduling and the coalescing of redraws are platform behaviour. Only a
  count of requests is kept.
- Floating-point rounding is left out. Coordinates are `real`, and the code only subtracts,
  halves, compares and clamps them.
- Re-entrancy is left out. A listener that calls back into the view during `onStateUpdate` is
  not modelled, because the listener is only an identity plus a log of the calls it gets.
- The crash when an image is `null` is left out. Each such path is a precondition instead.
- MainActivity.java is not part of this model. It is host glue that registers a listener that
  shows a toast.
