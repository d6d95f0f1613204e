# Women Techmakers watch face: the engine's control core in Dafny

This project models the control core of `WTMWatchFaceService.Engine`, the
Android Wear analog watch face. It covers five things:

- the once-a-second redraw timer on the engine's handler queue;
- the time-zone receiver registration guard;
- the mute-mode dimming of the hands;
- the ambient/interactive style switch of the Paint objects;
- the per-frame arithmetic of `onDraw` and `onSurfaceChanged`: the background
  choice, the hand angles, the hand lengths, and the rule that the second hand
  is drawn only in interactive mode.

Modules:

- `Paints`: colours as 32-bit ARGB values, the Paint attributes the engine
  changes (colour, antialias, shadow layer), the style switch `Styled` and the
  mute dimming `Dimmed`.
- `Frame`: the per-frame choices as pure functions over exact reals.
- `Timer`: the handler queue as a sequence of messages, `removeMessages`,
  `sendEmptyMessage(Delayed)`, and the delay that aligns the next redraw to a
  whole second.
- `Lifecycle`: the engine state as a value, one pure function per callback,
  traces of callbacks (`Step`, `Run`), and the invariant every trace from
  `onCreate` keeps.
- `WatchFace`: the class `Engine`, whose fields the callbacks update in place.
  Each method is proved to move `State()` (the fields read as a `Lifecycle`
  value) exactly as the matching `Lifecycle` function does. What `Lifecycle`
  proves about traces therefore holds of the engine.

Platform calls are modelled as data. `registerReceiver`/`unregisterReceiver`
on the platform append to a ghost log `receiverCalls`, and `invalidate()`
increments a ghost counter `redraws`. Wall-clock time (`System.currentTimeMillis`)
and the calendar fields are parameters. The interruption filter "none" is the
platform constant 3.

## Model

| member | source | states |
|---|---|---|
| Timer.JavaRem | WomenTechmakersWatchface/wear/src/main/java/com/trishwhetzel/womentechmakerswatchface/WTMWatchFaceService.java:136-137 | Java's `%` on long: the remainder has the sign of the dividend, is smaller than the divisor in magnitude, and with the truncated quotient gives back the dividend (`(a/b)*b + a%b == a`) |
| Timer.UpdateDelay | WomenTechmakersWatchface/wear/src/main/java/com/trishwhetzel/womentechmakerswatchface/WTMWatchFaceService.java:135-138 | the reschedule delay is in [1, 1000] for non-negative times (in [1000, 2000) for negative ones) and `timeMs + delay` is a multiple of 1000 |
| Timer.UpdateDelayIsLeast | WomenTechmakersWatchface/wear/src/main/java/com/trishwhetzel/womentechmakerswatchface/WTMWatchFaceService.java:135-138 | no shorter positive delay lands on a whole second |
| Timer.RemoveMessages | WomenTechmakersWatchface/wear/src/main/java/com/trishwhetzel/womentechmakerswatchface/WTMWatchFaceService.java:663 | removeMessages leaves no message with that id, keeps every other message, and adds none |
| Timer.Send | WomenTechmakersWatchface/wear/src/main/java/com/trishwhetzel/womentechmakerswatchface/WTMWatchFaceService.java:665 | sending adds exactly one message with that id and changes the count of no other id |
| Timer.Restarted | WomenTechmakersWatchface/wear/src/main/java/com/trishwhetzel/womentechmakerswatchface/WTMWatchFaceService.java:659-667 | after updateTimer exactly one update message is pending when the timer should run and none otherwise; other messages are untouched |
| Timer.AfterDelivery | WomenTechmakersWatchface/wear/src/main/java/com/trishwhetzel/womentechmakerswatchface/WTMWatchFaceService.java:128-141 | delivering the head message queues one follow-up, due after `UpdateDelay(timeMs)`, only when the timer should run |
| Frame.ChooseBackground | WomenTechmakersWatchface/wear/src/main/java/com/trishwhetzel/womentechmakerswatchface/WTMWatchFaceService.java:427-434 | exactly one background per frame: normal bitmap iff interactive, black iff ambient with low-bit or burn-in protection, ambient bitmap iff ambient without either |
| Frame.HandAngles | WomenTechmakersWatchface/wear/src/main/java/com/trishwhetzel/womentechmakerswatchface/WTMWatchFaceService.java:457-464 | for a valid calendar time every rotation lies in [0, 360), and the minute hand turns twelve times as fast as the hour hand's offset within its hour |
| Frame.AmbientDrawGuardIsRescaleGuard | WomenTechmakersWatchface/wear/src/main/java/com/trishwhetzel/womentechmakerswatchface/WTMWatchFaceService.java:396-401 | onDraw's guard for the ambient bitmap and onSurfaceChanged's guard for rescaling it are the same condition on the device flags as they stand when each runs |
| Frame.AnglesInRange | WomenTechmakersWatchface/wear/src/main/java/com/trishwhetzel/womentechmakerswatchface/WTMWatchFaceService.java:457-464 | for a valid calendar time all three rotations lie in [0, 360) |
| Frame.AnglesAreDialFractions | WomenTechmakersWatchface/wear/src/main/java/com/trishwhetzel/womentechmakerswatchface/WTMWatchFaceService.java:457-464 | each rotation is 360 degrees times the elapsed fraction of its dial (720 minutes, 60 minutes, 60000 ms) |
| Frame.HourHandContinuous | WomenTechmakersWatchface/wear/src/main/java/com/trishwhetzel/womentechmakerswatchface/WTMWatchFaceService.java:462-463 | the hour hand at h:59 is half a degree short of the next hour mark, also across twelve o'clock |
| Frame.HalfPastThree | WomenTechmakersWatchface/wear/src/main/java/com/trishwhetzel/womentechmakerswatchface/WTMWatchFaceService.java:457-464 | 3:30:00.000 gives 105, 180 and 0 degrees |
| Frame.SurfaceGeometry | WomenTechmakersWatchface/wear/src/main/java/com/trishwhetzel/womentechmakerswatchface/WTMWatchFaceService.java:367-375 | the centre is half the surface size, and on a non-empty surface 0 < hour < minute < second hand length < centerX |
| Frame.Surface400 | WomenTechmakersWatchface/wear/src/main/java/com/trishwhetzel/womentechmakerswatchface/WTMWatchFaceService.java:367-375 | a 400 x 400 surface gives centre (200, 200) and hands 165, 150, 104 |
| Frame.Plan | WomenTechmakersWatchface/wear/src/main/java/com/trishwhetzel/womentechmakerswatchface/WTMWatchFaceService.java:427-526 | a frame draws the chosen background, the hour and minute hands at their rotations and lengths, and a second hand iff not ambient |
| Frame.PlanStaysOnDial | WomenTechmakersWatchface/wear/src/main/java/com/trishwhetzel/womentechmakerswatchface/WTMWatchFaceService.java:457-526 | every hand drawn has an angle in [0, 360) and a positive length below centerX |
| Paints.WithAlpha | WomenTechmakersWatchface/wear/src/main/java/com/trishwhetzel/womentechmakerswatchface/WTMWatchFaceService.java:348-350 | setAlpha replaces the alpha byte and keeps red, green and blue |
| Paints.Styled | WomenTechmakersWatchface/wear/src/main/java/com/trishwhetzel/womentechmakerswatchface/WTMWatchFaceService.java:297-338 | the switch keeps every attribute it does not write in that mode, and all three hands take the alpha of the mode's colour (GRAY or the palette's), not the dimming |
| Paints.CreatedPaints | WomenTechmakersWatchface/wear/src/main/java/com/trishwhetzel/womentechmakerswatchface/WTMWatchFaceService.java:176-232 | onCreate's paints are already the interactive style of the default palette (GRAY hands and ticks, BLUE second hand, date and battery, LTGRAY shadows), the rectangle background is WHITE without antialias or shadow, and the text paints have no shadow |
| Paints.StyleValues | WomenTechmakersWatchface/wear/src/main/java/com/trishwhetzel/womentechmakerswatchface/WTMWatchFaceService.java:297-338 | ambient: hands and ticks GRAY, texts WHITE, date box TRANSPARENT, no antialias or shadow on hands and date; interactive: hand/highlight colours, antialias on all six paints, shadow in the shadow colour |
| Paints.StyleIdempotent | WomenTechmakersWatchface/wear/src/main/java/com/trishwhetzel/womentechmakerswatchface/WTMWatchFaceService.java:297-338 | restyling twice equals restyling once |
| Paints.StyleDependsOnlyOnModeAndPalette | WomenTechmakersWatchface/wear/src/main/java/com/trishwhetzel/womentechmakerswatchface/WTMWatchFaceService.java:297-338 | two paint sets restyle to the same result iff they agree on the attributes the switch does not write |
| Paints.AmbientRoundTrip | WomenTechmakersWatchface/wear/src/main/java/com/trishwhetzel/womentechmakerswatchface/WTMWatchFaceService.java:297-338 | interactive, ambient, interactive again restores the interactive style with the current palette |
| Paints.Dimmed | WomenTechmakersWatchface/wear/src/main/java/com/trishwhetzel/womentechmakerswatchface/WTMWatchFaceService.java:348-350 | mute gives the hour and minute hands alpha 100 and the second hand 80, otherwise 255, keeping their RGB, antialias and shadow; no other paint changes |
| Paints.StyleDropsMuteDimming | WomenTechmakersWatchface/wear/src/main/java/com/trishwhetzel/womentechmakerswatchface/WTMWatchFaceService.java:297-320 | as written, restyling a muted face in either mode leaves the hands undimmed |
| Paints.StyledKeepingMute | WomenTechmakersWatchface/wear/src/main/java/com/trishwhetzel/womentechmakerswatchface/WTMWatchFaceService.java:297-353 | the corrected switch shows the mute dimming, keeps the switch's RGB, antialias and shadow on all three hands, equals the switch on the other four paints, and equals the switch outright when not muted |
| Paints.StyledKeepingMuteIdempotent | WomenTechmakersWatchface/wear/src/main/java/com/trishwhetzel/womentechmakerswatchface/WTMWatchFaceService.java:297-353 | the corrected switch is idempotent too |
| Lifecycle.Created | WomenTechmakersWatchface/wear/src/main/java/com/trishwhetzel/womentechmakerswatchface/WTMWatchFaceService.java:145-255 | onCreate leaves the face hidden, interactive and not muted, with no redraw yet, no message queued, no receiver registered, the default palette and the created paints |
| Lifecycle.ShouldTimerBeRunning | WomenTechmakersWatchface/wear/src/main/java/com/trishwhetzel/womentechmakerswatchface/WTMWatchFaceService.java:673-675 | the timer should run exactly while the face is visible and onDraw picks the interactive background, the frame that has a second hand |
| Lifecycle.UpdateTimer | WomenTechmakersWatchface/wear/src/main/java/com/trishwhetzel/womentechmakerswatchface/WTMWatchFaceService.java:659-667 | one update message pending iff visible and not ambient; nothing but the queue changes |
| Lifecycle.UpdateTimerQueue | WomenTechmakersWatchface/wear/src/main/java/com/trishwhetzel/womentechmakerswatchface/WTMWatchFaceService.java:659-667 | when only update messages are queued, updateTimer leaves exactly `[update]` or nothing |
| Lifecycle.HandleMessage | WomenTechmakersWatchface/wear/src/main/java/com/trishwhetzel/womentechmakerswatchface/WTMWatchFaceService.java:128-141 | handling invalidates once and reschedules only when the timer should run; nothing else changes |
| Lifecycle.HandleMessageQueue | WomenTechmakersWatchface/wear/src/main/java/com/trishwhetzel/womentechmakerswatchface/WTMWatchFaceService.java:128-141 | with the single pending message delivered, exactly one follow-up aligned to the next second is left when the timer should run, and none otherwise |
| Lifecycle.OnDestroy | WomenTechmakersWatchface/wear/src/main/java/com/trishwhetzel/womentechmakerswatchface/WTMWatchFaceService.java:259-262 | onDestroy leaves no update message, keeps the receiver flag, and changes nothing else |
| Lifecycle.OnlyUpdatesClearedToEmpty | WomenTechmakersWatchface/wear/src/main/java/com/trishwhetzel/womentechmakerswatchface/WTMWatchFaceService.java:259-262 | a queue holding only update messages is empty after removeMessages |
| Lifecycle.OnPropertiesChanged | WomenTechmakersWatchface/wear/src/main/java/com/trishwhetzel/womentechmakerswatchface/WTMWatchFaceService.java:265-273 | stores the two device flags and changes nothing else |
| Lifecycle.OnTimeTick | WomenTechmakersWatchface/wear/src/main/java/com/trishwhetzel/womentechmakerswatchface/WTMWatchFaceService.java:276-280 | one redraw request and nothing else |
| Lifecycle.UpdateWatchHandStyle | WomenTechmakersWatchface/wear/src/main/java/com/trishwhetzel/womentechmakerswatchface/WTMWatchFaceService.java:297-338 | the paints become `Styled(paints, mode, palette)` (hour hand GRAY or the hand colour, second hand GRAY or the highlight) and nothing else changes |
| Lifecycle.OnAmbientModeChanged | WomenTechmakersWatchface/wear/src/main/java/com/trishwhetzel/womentechmakerswatchface/WTMWatchFaceService.java:283-295 | stores the mode, restyles the paints for it, leaves one update pending iff visible and interactive, and changes nothing else |
| Lifecycle.AmbientToggleRestoresStyle | WomenTechmakersWatchface/wear/src/main/java/com/trishwhetzel/womentechmakerswatchface/WTMWatchFaceService.java:283-338 | entering and leaving ambient mode restores the interactive style with the current palette |
| Lifecycle.OnPaletteGenerated | WomenTechmakersWatchface/wear/src/main/java/com/trishwhetzel/womentechmakerswatchface/WTMWatchFaceService.java:241-252 | a null palette changes nothing; otherwise light-vibrant/vibrant/dark-muted (defaults WHITE, BLUE, BLACK) become hand/highlight/shadow, the style is reapplied, and nothing but palette and paints changes |
| Lifecycle.OnInterruptionFilterChanged | WomenTechmakersWatchface/wear/src/main/java/com/trishwhetzel/womentechmakerswatchface/WTMWatchFaceService.java:341-353 | mute iff the filter is NONE; the state changes iff the mute state changes, and then the hands are dimmed or restored and one redraw is requested; nothing but mute mode, paints and redraws changes |
| Lifecycle.InterruptionFilterRepeatIsNoOp | WomenTechmakersWatchface/wear/src/main/java/com/trishwhetzel/womentechmakerswatchface/WTMWatchFaceService.java:341-353 | the same filter a second time changes nothing |
| Lifecycle.OnSurfaceChanged | WomenTechmakersWatchface/wear/src/main/java/com/trishwhetzel/womentechmakerswatchface/WTMWatchFaceService.java:367-375 | the centre is half the surface size, the hand lengths are those of `SurfaceGeometry` (ordered and below centerX on a non-empty surface), and nothing else changes |
| Lifecycle.RegisterReceiver | WomenTechmakersWatchface/wear/src/main/java/com/trishwhetzel/womentechmakerswatchface/WTMWatchFaceService.java:613-635 | registered afterwards; a platform registration happens only when the flag was false; nothing else changes |
| Lifecycle.UnregisterReceiver | WomenTechmakersWatchface/wear/src/main/java/com/trishwhetzel/womentechmakerswatchface/WTMWatchFaceService.java:637-654 | unregistered afterwards; a platform unregistration happens only when the flag was true; nothing else changes |
| Lifecycle.ReceiverRegistrationIdempotent | WomenTechmakersWatchface/wear/src/main/java/com/trishwhetzel/womentechmakerswatchface/WTMWatchFaceService.java:613-654 | registering twice equals registering once, and likewise for unregistering |
| Lifecycle.ReceiverStepsKeepInv | WomenTechmakersWatchface/wear/src/main/java/com/trishwhetzel/womentechmakerswatchface/WTMWatchFaceService.java:613-654 | both guarded calls keep the platform calls alternating, with the flag telling which came last |
| Lifecycle.OnVisibilityChanged | WomenTechmakersWatchface/wear/src/main/java/com/trishwhetzel/womentechmakerswatchface/WTMWatchFaceService.java:571-585 | the receiver is registered iff visible, the platform log gains one registration only when shown while unregistered and one unregistration only when hidden while registered, one redraw when shown, one update pending iff visible and interactive, and nothing else changes |
| Lifecycle.VisibilityRepeatRegistersOnce | WomenTechmakersWatchface/wear/src/main/java/com/trishwhetzel/womentechmakerswatchface/WTMWatchFaceService.java:571-585 | a repeated visibility report makes no new platform call |
| Lifecycle.Step | WomenTechmakersWatchface/wear/src/main/java/com/trishwhetzel/womentechmakerswatchface/WTMWatchFaceService.java:128-353 | dispatch of the callbacks: only onVisibilityChanged calls the platform's receiver registration, only the palette callback replaces the palette, only the filter changes the mute mode, only onAmbientModeChanged the mode, only onSurfaceChanged the geometry |
| Lifecycle.StepKeepsInv | WomenTechmakersWatchface/wear/src/main/java/com/trishwhetzel/womentechmakerswatchface/WTMWatchFaceService.java:128-675 | every callback keeps the invariant: at most one pending message, only update messages, one only while the timer should run, alternating receiver calls |
| Lifecycle.RunKeepsInv | WomenTechmakersWatchface/wear/src/main/java/com/trishwhetzel/womentechmakerswatchface/WTMWatchFaceService.java:128-675 | every trace of callbacks keeps the invariant |
| Lifecycle.ReachableStates | WomenTechmakersWatchface/wear/src/main/java/com/trishwhetzel/womentechmakerswatchface/WTMWatchFaceService.java:659-667 | from onCreate, after any callbacks: at most one update pending, pending only while visible and interactive, registrations and unregistrations strictly alternate starting with a registration |
| Lifecycle.MuteDimmingLostAcrossAmbient | WomenTechmakersWatchface/wear/src/main/java/com/trishwhetzel/womentechmakerswatchface/WTMWatchFaceService.java:297-353 | as written: mute, ambient on, ambient off, mute again leaves a muted face with fully opaque hands |
| Lifecycle.RestyleKeepingMute | WomenTechmakersWatchface/wear/src/main/java/com/trishwhetzel/womentechmakerswatchface/WTMWatchFaceService.java:297-353 | the corrected restyle shows the dimming the mute state calls for, gives the hands the switch's RGB and leaves the other paints as the switch makes them, equals the switch when not muted, and changes only the paints |
| Lifecycle.RunKeepingMuteShowsMute | WomenTechmakersWatchface/wear/src/main/java/com/trishwhetzel/womentechmakerswatchface/WTMWatchFaceService.java:283-353 | with the corrected restyle a muted face shows dimmed hands after any trace of callbacks |
| WatchFace.Engine.constructor | WomenTechmakersWatchface/wear/src/main/java/com/trishwhetzel/womentechmakerswatchface/WTMWatchFaceService.java:145-255 | onCreate's fields equal `Lifecycle.Created` and satisfy the invariant |
| WatchFace.Engine.ShouldTimerBeRunning | WomenTechmakersWatchface/wear/src/main/java/com/trishwhetzel/womentechmakerswatchface/WTMWatchFaceService.java:673-675 | the class's test reads the fields as `Lifecycle.ShouldTimerBeRunning` reads the state |
| WatchFace.Engine.UpdateTimer | WomenTechmakersWatchface/wear/src/main/java/com/trishwhetzel/womentechmakerswatchface/WTMWatchFaceService.java:659-667 | the method changes only the queue, exactly as `Lifecycle.UpdateTimer` |
| WatchFace.Engine.HandleMessage | WomenTechmakersWatchface/wear/src/main/java/com/trishwhetzel/womentechmakerswatchface/WTMWatchFaceService.java:128-141 | the method updates the fields as `Lifecycle.HandleMessage` |
| WatchFace.Engine.OnDestroy | WomenTechmakersWatchface/wear/src/main/java/com/trishwhetzel/womentechmakerswatchface/WTMWatchFaceService.java:259-262 | the method updates the fields as `Lifecycle.OnDestroy` |
| WatchFace.Engine.OnPropertiesChanged | WomenTechmakersWatchface/wear/src/main/java/com/trishwhetzel/womentechmakerswatchface/WTMWatchFaceService.java:265-273 | the method updates the fields as `Lifecycle.OnPropertiesChanged` |
| WatchFace.Engine.OnTimeTick | WomenTechmakersWatchface/wear/src/main/java/com/trishwhetzel/womentechmakerswatchface/WTMWatchFaceService.java:276-280 | the method updates the fields as `Lifecycle.OnTimeTick` |
| WatchFace.Engine.UpdateWatchHandStyle | WomenTechmakersWatchface/wear/src/main/java/com/trishwhetzel/womentechmakerswatchface/WTMWatchFaceService.java:297-338 | the paint-by-paint calls produce `Styled(old paints, mode, palette)` and touch no other field |
| WatchFace.Engine.OnAmbientModeChanged | WomenTechmakersWatchface/wear/src/main/java/com/trishwhetzel/womentechmakerswatchface/WTMWatchFaceService.java:283-295 | the method updates the fields as `Lifecycle.OnAmbientModeChanged` |
| WatchFace.Engine.OnPaletteGenerated | WomenTechmakersWatchface/wear/src/main/java/com/trishwhetzel/womentechmakerswatchface/WTMWatchFaceService.java:241-252 | the method updates the fields as `Lifecycle.OnPaletteGenerated` |
| WatchFace.Engine.OnInterruptionFilterChanged | WomenTechmakersWatchface/wear/src/main/java/com/trishwhetzel/womentechmakerswatchface/WTMWatchFaceService.java:341-353 | the setAlpha calls update the fields as `Lifecycle.OnInterruptionFilterChanged` |
| WatchFace.Engine.OnSurfaceChanged | WomenTechmakersWatchface/wear/src/main/java/com/trishwhetzel/womentechmakerswatchface/WTMWatchFaceService.java:367-375 | the method changes only the geometry, as `Lifecycle.OnSurfaceChanged` |
| WatchFace.Engine.RegisterReceiver | WomenTechmakersWatchface/wear/src/main/java/com/trishwhetzel/womentechmakerswatchface/WTMWatchFaceService.java:613-635 | changes only the flag and the call log, as `Lifecycle.RegisterReceiver` |
| WatchFace.Engine.UnregisterReceiver | WomenTechmakersWatchface/wear/src/main/java/com/trishwhetzel/womentechmakerswatchface/WTMWatchFaceService.java:637-654 | changes only the flag and the call log, as `Lifecycle.UnregisterReceiver` |
| WatchFace.Engine.OnVisibilityChanged | WomenTechmakersWatchface/wear/src/main/java/com/trishwhetzel/womentechmakerswatchface/WTMWatchFaceService.java:571-585 | the method updates the fields as `Lifecycle.OnVisibilityChanged` |
| WatchFace.Engine.OnDraw | WomenTechmakersWatchface/wear/src/main/java/com/trishwhetzel/womentechmakerswatchface/WTMWatchFaceService.java:419-540 | the frame the method computes is `Frame.Plan` of the engine's mode, device flags, calendar time and stored geometry, so `Frame.PlanStaysOnDial` and the background and second-hand rules hold of it |

## Left out

- Canvas drawing (drawLine, drawRect, drawText, drawCircle, rotate, save, restore, the peek-card rectangle): platform rendering with no checkable output. `OnDraw` returns what it would draw instead.
- Tick placement with `Math.sin`/`Math.cos` (lines 441-451): floating-point trigonometry.
- Bitmap decoding, scaling and `initGrayBackgroundBitmap` (lines 162-163, 379-401, 404-416): foreign graphics calls. The model holds no bitmaps. onSurfaceChanged is modelled for the centre and hand lengths only; its rescaling of the two images, and the exception `Bitmap.createScaledBitmap` raises for a non-positive size, are not.
- Float rounding: angles and lengths are exact reals, not 32-bit floats.
- `Palette.generateAsync`: only its callback's effect is modelled (`OnPaletteGenerated`), not the background thread or when it runs.
- The battery level (sticky broadcast intent) and date text (`SimpleDateFormat`): platform I/O and library formatting. The battery text is `level + "%"`, so the sentinel -1 shows as "-1%".
- `onApplyWindowInsets`, `Log`, `setWatchFaceStyle`, the text paint and `computeXOffset`/`computeBatteryXOffset`: resource lookups, logging, platform configuration and layout offsets.
- The time-zone receiver's `onReceive` and the calendar's time zone: only registration is modelled.
- Handler timing: a queued message records its delay but the queue is not ordered by due time; the handler delivers the head message, and only while one is queued.
- The Paint objects are values, not shared objects: the engine holds them in one record field `paints`, and the three watch-hand colours in one record field `palette`. The source has one field per Paint and per colour; no Paint is aliased there either.
- WatchFace.Engine methods do not carry the invariant themselves: each is proved equal to its `Lifecycle` function, and the invariant is proved about those functions (`Lifecycle.RunKeepsInv`, `Lifecycle.ReachableStates`).
- onDestroy cancels the timer only; it does not unregister the time-zone receiver, and the model keeps the flag as it is (`Lifecycle.OnDestroy`).

## Findings

| source | as written | input that shows it | evidently intended | confidence | as-written member | corrected member |
|---|---|---|---|---|---|---|
| WomenTechmakersWatchface/wear/src/main/java/com/trishwhetzel/womentechmakerswatchface/WTMWatchFaceService.java:318-320 | `updateWatchHandStyle` calls `setColor` on the hands, which rewrites the alpha byte set by `onInterruptionFilterChanged`; the filter callback only re-dims when the mute state changes | after onCreate: filter NONE, ambient on, ambient off, filter NONE; the face is muted and the hour hand's alpha is 255 | a muted face shows its hands at alpha 100/100/80 whatever the style switch did | medium, not executed | Lifecycle.MuteDimmingLostAcrossAmbient | Lifecycle.RunKeepingMuteShowsMute |

The engine class keeps the behaviour as written, so that each method matches
its source lines. The corrected restyle is the alternative transition function
`Lifecycle.StepKeepingMute` (built on `Paints.StyledKeepingMute`); every other
callback is shared with the as-written `Lifecycle.Step`.
