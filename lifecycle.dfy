/** The control state of the watch-face engine and one pure function per host
    callback: what each callback does to the state. The platform calls the engine
    makes (receiver registration, invalidate) are recorded in the state as a log
    and a counter. */
module Lifecycle {
  import opened Paints
  import opened Frame
  import opened Timer

  /** WatchFaceService.INTERRUPTION_FILTER_NONE, the platform's "do not disturb". */
  const INTERRUPTION_FILTER_NONE: int := 3

  /** A call to the platform's registerReceiver / unregisterReceiver for the
      time-zone receiver. */
  datatype ReceiverCall = RegisterTimeZone | UnregisterTimeZone

  /** The swatches a generated palette offers; a missing swatch makes the getter
      return its default. */
  datatype Swatches = Swatches(vibrant: Option<Argb>, lightVibrant: Option<Argb>, darkMuted: Option<Argb>)

  datatype EngineState = EngineState(
    visible: bool,                      // isVisible()
    ambient: bool,                      // mAmbient
    lowBitAmbient: bool,                // mLowBitAmbient
    burnInProtection: bool,             // mBurnInProtection
    muteMode: bool,                     // mMuteMode
    registeredTimeZoneReceiver: bool,   // mRegisteredTimeZoneReceiver
    queue: seq<Message>,                // mUpdateTimeHandler's message queue
    palette: Palette,                   // the three watch-hand colours
    paints: FacePaints,
    geometry: Geometry,                 // centre and hand lengths
    receiverCalls: seq<ReceiverCall>,   // platform registrations, in order
    redraws: nat)                       // invalidate() calls so far

  /** The state at the end of onCreate. */
  function Created(): (s: EngineState)
    ensures s.queue == [] && !s.registeredTimeZoneReceiver && s.receiverCalls == []
    ensures s.palette == DEFAULT_PALETTE && s.paints == CreatedPaints()
    ensures !s.visible && !s.ambient && !s.muteMode && s.redraws == 0
  {
    EngineState(
      visible := false, ambient := false, lowBitAmbient := false, burnInProtection := false,
      muteMode := false, registeredTimeZoneReceiver := false, queue := [],
      palette := DEFAULT_PALETTE, paints := CreatedPaints(),
      geometry := Geometry(0.0, 0.0, 0.0, 0.0, 0.0),
      receiverCalls := [], redraws := 0)
  }

  /** shouldTimerBeRunning: visible and not ambient, that is, exactly while the
      face is on screen drawing its interactive frame, the one with a second hand. */
  predicate ShouldTimerBeRunning(s: EngineState): (b: bool)
    ensures b <==> s.visible
                   && ChooseBackground(s.ambient, s.lowBitAmbient, s.burnInProtection) == NormalBitmap
  {
    s.visible && !s.ambient
  }

  /** updateTimer: cancel, then post one immediate update only if the timer should run. */
  function UpdateTimer(s: EngineState): (r: EngineState)
    ensures Count(r.queue, MSG_UPDATE_TIME) == if ShouldTimerBeRunning(s) then 1 else 0
    ensures r.(queue := s.queue) == s
  {
    s.(queue := Restarted(s.queue, ShouldTimerBeRunning(s)))
  }

  /** mUpdateTimeHandler.handleMessage for the head message, at wall-clock timeMs:
      invalidate, then reschedule aligned to the next second only if the timer
      should run. */
  function HandleMessage(s: EngineState, timeMs: int): (r: EngineState)
    requires s.queue != []
    ensures r.redraws == s.redraws + 1
    ensures Count(r.queue, MSG_UPDATE_TIME)
         == Count(s.queue[1..], MSG_UPDATE_TIME) + (if ShouldTimerBeRunning(s) then 1 else 0)
    ensures r.(queue := s.queue, redraws := s.redraws) == s
  {
    s.(redraws := s.redraws + 1, queue := AfterDelivery(s.queue, ShouldTimerBeRunning(s), timeMs))
  }

  /** onDestroy: removes every pending MSG_UPDATE_TIME and changes nothing else
      (in particular it does not unregister the time-zone receiver). */
  function OnDestroy(s: EngineState): (r: EngineState)
    ensures Count(r.queue, MSG_UPDATE_TIME) == 0
    ensures r.registeredTimeZoneReceiver == s.registeredTimeZoneReceiver
    ensures r.(queue := s.queue) == s
  {
    s.(queue := RemoveMessages(s.queue, MSG_UPDATE_TIME))
  }

  /** onPropertiesChanged: the two device capability flags. */
  function OnPropertiesChanged(s: EngineState, lowBitAmbient: bool, burnInProtection: bool): (r: EngineState)
    ensures r.lowBitAmbient == lowBitAmbient && r.burnInProtection == burnInProtection
    ensures r.(lowBitAmbient := s.lowBitAmbient, burnInProtection := s.burnInProtection) == s
  {
    s.(lowBitAmbient := lowBitAmbient, burnInProtection := burnInProtection)
  }

  /** onTimeTick: the minute tick of ambient mode only requests a redraw. */
  function OnTimeTick(s: EngineState): (r: EngineState)
    ensures r.redraws == s.redraws + 1
    ensures r.(redraws := s.redraws) == s
  {
    s.(redraws := s.redraws + 1)
  }

  /** updateWatchHandStyle: restyles the paints from the mode and palette only. */
  function UpdateWatchHandStyle(s: EngineState): (r: EngineState)
    ensures r.paints == Styled(s.paints, s.ambient, s.palette)
    ensures r.paints.hour.color == if s.ambient then GRAY else s.palette.hand
    ensures r.paints.second.color == if s.ambient then GRAY else s.palette.highlight
    ensures r.(paints := s.paints) == s
  {
    s.(paints := Styled(s.paints, s.ambient, s.palette))
  }

  /** onAmbientModeChanged: store the mode, restyle, then start or stop the timer. */
  function OnAmbientModeChanged(s: EngineState, inAmbientMode: bool): (r: EngineState)
    ensures r.ambient == inAmbientMode
    ensures Count(r.queue, MSG_UPDATE_TIME) == if s.visible && !inAmbientMode then 1 else 0
    ensures r.paints == Styled(s.paints, inAmbientMode, s.palette)
    ensures r.(ambient := s.ambient, paints := s.paints, queue := s.queue) == s
  {
    UpdateTimer(UpdateWatchHandStyle(s.(ambient := inAmbientMode)))
  }

  /** The effect of the asynchronous palette callback: a null palette changes
      nothing; otherwise the light-vibrant, vibrant and dark-muted colours (with
      their defaults WHITE, BLUE and BLACK) replace the hand, highlight and shadow
      colours, and the style is reapplied. */
  function OnPaletteGenerated(s: EngineState, palette: Option<Swatches>): (r: EngineState)
    ensures palette.None? ==> r == s
    ensures palette.Some? ==> r.palette.hand == palette.value.lightVibrant.GetOr(WHITE)
    ensures palette.Some? ==> r.palette.highlight == palette.value.vibrant.GetOr(BLUE)
    ensures palette.Some? ==> r.palette.shadow == palette.value.darkMuted.GetOr(BLACK)
    ensures palette.Some? ==> r.paints == Styled(s.paints, s.ambient, r.palette)
    ensures r.(palette := s.palette, paints := s.paints) == s
  {
    match palette
    case None => s
    case Some(sw) =>
      UpdateWatchHandStyle(s.(palette := Palette(
        hand := sw.lightVibrant.GetOr(WHITE),
        highlight := sw.vibrant.GetOr(BLUE),
        shadow := sw.darkMuted.GetOr(BLACK))))
  }

  /** onInterruptionFilterChanged: mute when the filter is NONE; dim or restore
      the hands and invalidate only when the mute state actually changes. */
  function OnInterruptionFilterChanged(s: EngineState, interruptionFilter: int): (r: EngineState)
    ensures r.muteMode == (interruptionFilter == INTERRUPTION_FILTER_NONE)
    ensures r == s <==> s.muteMode == (interruptionFilter == INTERRUPTION_FILTER_NONE)
    ensures r != s ==> r.redraws == s.redraws + 1 && r.paints == Dimmed(s.paints, r.muteMode)
    ensures r.(muteMode := s.muteMode, paints := s.paints, redraws := s.redraws) == s
  {
    var inMuteMode := interruptionFilter == INTERRUPTION_FILTER_NONE;
    if s.muteMode != inMuteMode then
      s.(muteMode := inMuteMode, paints := Dimmed(s.paints, inMuteMode), redraws := s.redraws + 1)
    else
      s
  }

  /** onSurfaceChanged: the centre is half the surface size and the hand lengths
      are fixed fractions of centerX. The bitmap rescaling is not part of the model. */
  function OnSurfaceChanged(s: EngineState, width: int, height: int): (r: EngineState)
    ensures 2.0 * r.geometry.centerX == width as real && 2.0 * r.geometry.centerY == height as real
    ensures width > 0 ==> 0.0 < r.geometry.hourHandLength < r.geometry.minuteHandLength
                          < r.geometry.secondHandLength < r.geometry.centerX
    ensures r.geometry == SurfaceGeometry(width, height)
    ensures r.(geometry := s.geometry) == s
  {
    s.(geometry := SurfaceGeometry(width, height))
  }

  /** registerReceiver: register with the platform only if not registered yet. */
  function RegisterReceiver(s: EngineState): (r: EngineState)
    ensures r.registeredTimeZoneReceiver
    ensures r.receiverCalls
         == s.receiverCalls + if s.registeredTimeZoneReceiver then [] else [RegisterTimeZone]
    ensures r.(registeredTimeZoneReceiver := s.registeredTimeZoneReceiver,
               receiverCalls := s.receiverCalls) == s
  {
    if !s.registeredTimeZoneReceiver then
      s.(registeredTimeZoneReceiver := true, receiverCalls := s.receiverCalls + [RegisterTimeZone])
    else
      s
  }

  /** unregisterReceiver: unregister from the platform only if registered. */
  function UnregisterReceiver(s: EngineState): (r: EngineState)
    ensures !r.registeredTimeZoneReceiver
    ensures r.receiverCalls
         == s.receiverCalls + if s.registeredTimeZoneReceiver then [UnregisterTimeZone] else []
    ensures r.(registeredTimeZoneReceiver := s.registeredTimeZoneReceiver,
               receiverCalls := s.receiverCalls) == s
  {
    if s.registeredTimeZoneReceiver then
      s.(registeredTimeZoneReceiver := false, receiverCalls := s.receiverCalls + [UnregisterTimeZone])
    else
      s
  }

  /** Registering twice is registering once, and likewise for unregistering. */
  lemma ReceiverRegistrationIdempotent(s: EngineState)
    ensures RegisterReceiver(RegisterReceiver(s)) == RegisterReceiver(s)
    ensures UnregisterReceiver(UnregisterReceiver(s)) == UnregisterReceiver(s)
  {
  }

  /** onVisibilityChanged: register and invalidate when shown, unregister when
      hidden, then start or stop the timer. */
  function OnVisibilityChanged(s: EngineState, visible: bool): (r: EngineState)
    ensures r.visible == visible && r.registeredTimeZoneReceiver == visible
    ensures Count(r.queue, MSG_UPDATE_TIME) == if visible && !s.ambient then 1 else 0
    ensures r.redraws == s.redraws + if visible then 1 else 0
    ensures r.receiverCalls == s.receiverCalls
      + if visible && !s.registeredTimeZoneReceiver then [RegisterTimeZone]
        else if !visible && s.registeredTimeZoneReceiver then [UnregisterTimeZone]
        else []
    ensures r.(visible := s.visible, registeredTimeZoneReceiver := s.registeredTimeZoneReceiver,
               receiverCalls := s.receiverCalls, redraws := s.redraws, queue := s.queue) == s
  {
    var shown := s.(visible := visible);
    UpdateTimer(
      if visible then RegisterReceiver(shown).(redraws := shown.redraws + 1)
      else UnregisterReceiver(shown))
  }

  /** The host callbacks, as events of a trace. */
  datatype Event =
    | VisibilityChanged(visible: bool)
    | AmbientModeChanged(inAmbientMode: bool)
    | PropertiesChanged(lowBitAmbient: bool, burnInProtection: bool)
    | InterruptionFilterChanged(filter: int)
    | SurfaceChanged(width: int, height: int)
    | PaletteGenerated(palette: Option<Swatches>)
    | TimerMessage(timeMs: int)
    | TimeTick
    | Destroy

  /** One host callback. The handler delivers a message only while one is queued;
      otherwise the event is a no-op. Each part of the state has its own callbacks:
      only visibility changes call the platform's receiver registration, only the
      palette callback replaces the palette, only the filter changes the mute
      mode, and only onAmbientModeChanged changes the mode. */
  function Step(s: EngineState, e: Event): (r: EngineState)
    ensures r.receiverCalls != s.receiverCalls ==> e.VisibilityChanged?
    ensures r.palette != s.palette ==> e.PaletteGenerated?
    ensures r.muteMode != s.muteMode ==> e.InterruptionFilterChanged?
    ensures r.ambient != s.ambient ==> e.AmbientModeChanged?
    ensures r.geometry != s.geometry ==> e.SurfaceChanged?
  {
    match e
    case VisibilityChanged(v) => OnVisibilityChanged(s, v)
    case AmbientModeChanged(a) => OnAmbientModeChanged(s, a)
    case PropertiesChanged(l, b) => OnPropertiesChanged(s, l, b)
    case InterruptionFilterChanged(f) => OnInterruptionFilterChanged(s, f)
    case SurfaceChanged(w, h) => OnSurfaceChanged(s, w, h)
    case PaletteGenerated(p) => OnPaletteGenerated(s, p)
    case TimerMessage(t) => if s.queue != [] then HandleMessage(s, t) else s
    case TimeTick => OnTimeTick(s)
    case Destroy => OnDestroy(s)
  }

  /** A trace of callbacks, applied in order. */
  function Run(s: EngineState, events: seq<Event>): EngineState
    decreases |events|
  {
    if events == [] then s else Run(Step(s, events[0]), events[1..])
  }

  /** The platform calls alternate, starting with a registration. */
  predicate Alternates(calls: seq<ReceiverCall>)
  {
    forall i :: 0 <= i < |calls| ==>
      calls[i] == if i % 2 == 0 then RegisterTimeZone else UnregisterTimeZone
  }

  /** At most one update message is queued, and one is queued only while the
      timer should be running. */
  ghost predicate TimerInv(s: EngineState)
  {
    && |s.queue| <= 1
    && (forall i :: 0 <= i < |s.queue| ==> s.queue[i].what == MSG_UPDATE_TIME)
    && (s.queue != [] ==> ShouldTimerBeRunning(s))
  }

  /** The flag tells whether the last platform call was a registration. */
  ghost predicate ReceiverInv(s: EngineState)
  {
    Alternates(s.receiverCalls) && s.registeredTimeZoneReceiver == (|s.receiverCalls| % 2 == 1)
  }

  ghost predicate Inv(s: EngineState)
  {
    TimerInv(s) && ReceiverInv(s) && s.paints.date.shadow == NoShadow
  }

  lemma CreatedSatisfiesInv()
    ensures Inv(Created())
  {
  }

  lemma OnlyUpdatesClearedToEmpty(q: seq<Message>)
    requires forall i :: 0 <= i < |q| ==> q[i].what == MSG_UPDATE_TIME
    ensures RemoveMessages(q, MSG_UPDATE_TIME) == []
  {
  }

  /** Under the invariant, updateTimer leaves exactly the one message it sent, or none. */
  lemma UpdateTimerQueue(s: EngineState)
    requires forall i :: 0 <= i < |s.queue| ==> s.queue[i].what == MSG_UPDATE_TIME
    ensures UpdateTimer(s).queue
         == if ShouldTimerBeRunning(s) then [Message(MSG_UPDATE_TIME, 0)] else []
  {
    OnlyUpdatesClearedToEmpty(s.queue);
  }

  /** Delivering the single pending message reschedules exactly one follow-up,
      due at the next whole second, when the timer should run, and leaves nothing
      pending otherwise. */
  lemma HandleMessageQueue(s: EngineState, timeMs: int)
    requires |s.queue| == 1
    ensures HandleMessage(s, timeMs).queue
         == if ShouldTimerBeRunning(s) then [Message(MSG_UPDATE_TIME, UpdateDelay(timeMs))] else []
  {
  }

  lemma ReceiverStepsKeepInv(s: EngineState)
    requires ReceiverInv(s)
    ensures ReceiverInv(RegisterReceiver(s)) && ReceiverInv(UnregisterReceiver(s))
  {
    var n := |s.receiverCalls|;
    if !s.registeredTimeZoneReceiver {
      var c := s.receiverCalls + [RegisterTimeZone];
      assert forall i :: 0 <= i < n ==> c[i] == s.receiverCalls[i];
      assert c[n] == RegisterTimeZone && n % 2 == 0;
    } else {
      var c := s.receiverCalls + [UnregisterTimeZone];
      assert forall i :: 0 <= i < n ==> c[i] == s.receiverCalls[i];
      assert c[n] == UnregisterTimeZone && n % 2 == 1;
    }
  }

  lemma VisibilityKeepsInv(s: EngineState, visible: bool)
    requires Inv(s)
    ensures Inv(OnVisibilityChanged(s, visible))
  {
    var shown := s.(visible := visible);
    ReceiverStepsKeepInv(shown);
    if visible {
      var mid := RegisterReceiver(shown).(redraws := shown.redraws + 1);
      assert ReceiverInv(mid) && mid.paints == s.paints;
      UpdateTimerQueue(mid);
      assert OnVisibilityChanged(s, visible) == UpdateTimer(mid);
    } else {
      var mid := UnregisterReceiver(shown);
      assert ReceiverInv(mid) && mid.paints == s.paints;
      UpdateTimerQueue(mid);
      assert OnVisibilityChanged(s, visible) == UpdateTimer(mid);
    }
  }

  lemma AmbientKeepsInv(s: EngineState, inAmbientMode: bool)
    requires Inv(s)
    ensures Inv(OnAmbientModeChanged(s, inAmbientMode))
  {
    UpdateTimerQueue(UpdateWatchHandStyle(s.(ambient := inAmbientMode)));
  }

  lemma TimerMessageKeepsInv(s: EngineState, timeMs: int)
    requires Inv(s) && s.queue != []
    ensures Inv(HandleMessage(s, timeMs))
  {
    HandleMessageQueue(s, timeMs);
  }

  lemma DestroyKeepsInv(s: EngineState)
    requires Inv(s)
    ensures Inv(OnDestroy(s))
  {
    OnlyUpdatesClearedToEmpty(s.queue);
  }

  lemma SurfaceKeepsInv(s: EngineState, width: int, height: int)
    requires Inv(s)
    ensures Inv(OnSurfaceChanged(s, width, height))
  {
    var r := OnSurfaceChanged(s, width, height);
    assert r.queue == s.queue && r.receiverCalls == s.receiverCalls && r.paints == s.paints;
  }

  lemma PropertiesKeepInv(s: EngineState, lowBitAmbient: bool, burnInProtection: bool)
    requires Inv(s)
    ensures Inv(OnPropertiesChanged(s, lowBitAmbient, burnInProtection))
  {
  }

  lemma FilterKeepsInv(s: EngineState, interruptionFilter: int)
    requires Inv(s)
    ensures Inv(OnInterruptionFilterChanged(s, interruptionFilter))
  {
  }

  lemma PaletteKeepsInv(s: EngineState, palette: Option<Swatches>)
    requires Inv(s)
    ensures Inv(OnPaletteGenerated(s, palette))
  {
  }

  /** Every callback keeps the invariant. */
  lemma StepKeepsInv(s: EngineState, e: Event)
    requires Inv(s)
    ensures Inv(Step(s, e))
  {
    match e
    case VisibilityChanged(v) => VisibilityKeepsInv(s, v);
    case AmbientModeChanged(a) => AmbientKeepsInv(s, a);
    case PropertiesChanged(l, b) => PropertiesKeepInv(s, l, b);
    case InterruptionFilterChanged(f) => FilterKeepsInv(s, f);
    case SurfaceChanged(w, h) => SurfaceKeepsInv(s, w, h);
    case PaletteGenerated(p) => PaletteKeepsInv(s, p);
    case TimerMessage(t) => if s.queue != [] { TimerMessageKeepsInv(s, t); }
    case TimeTick =>
    case Destroy => DestroyKeepsInv(s);
  }

  /** Every trace of callbacks keeps the invariant. */
  lemma {:induction false} RunKeepsInv(s: EngineState, events: seq<Event>)
    requires Inv(s)
    ensures Inv(Run(s, events))
    decreases |events|
  {
    if events != [] {
      StepKeepsInv(s, events[0]);
      RunKeepsInv(Step(s, events[0]), events[1..]);
    }
  }

  /** From onCreate on, whatever the host does: at most one update message is
      pending, one is pending only while visible and not ambient, and the platform
      registrations and unregistrations strictly alternate, starting with a
      registration, with the flag telling which came last. */
  lemma ReachableStates(events: seq<Event>)
    ensures var s := Run(Created(), events);
      && |s.queue| <= 1
      && (s.queue != [] ==> s.visible && !s.ambient)
      && Alternates(s.receiverCalls)
      && s.registeredTimeZoneReceiver == (|s.receiverCalls| % 2 == 1)
  {
    CreatedSatisfiesInv();
    RunKeepsInv(Created(), events);
  }

  /** Receiving the same interruption filter twice changes nothing the second time. */
  lemma InterruptionFilterRepeatIsNoOp(s: EngineState, interruptionFilter: int)
    ensures var once := OnInterruptionFilterChanged(s, interruptionFilter);
      OnInterruptionFilterChanged(once, interruptionFilter) == once
  {
  }

  /** A second visibility report with the same value makes no new platform call
      and leaves the registration as it was. */
  lemma VisibilityRepeatRegistersOnce(s: EngineState, visible: bool)
    ensures var once := OnVisibilityChanged(s, visible);
      var twice := OnVisibilityChanged(once, visible);
      twice.receiverCalls == once.receiverCalls
      && twice.registeredTimeZoneReceiver == once.registeredTimeZoneReceiver
  {
  }

  /** Entering ambient mode and leaving it again restores the interactive style
      with the palette then current. */
  lemma AmbientToggleRestoresStyle(s: EngineState)
    requires Inv(s)
    ensures OnAmbientModeChanged(OnAmbientModeChanged(s, true), false).paints
         == Styled(s.paints, false, s.palette)
  {
  }

  /** As written: after muting, entering and leaving ambient mode shows the hands
      at full opacity while still muted, and a second NONE filter does not dim
      them again, because setColor in updateWatchHandStyle rewrites the alpha. */
  lemma MuteDimmingLostAcrossAmbient()
    ensures var s := Run(Created(),
                         [InterruptionFilterChanged(INTERRUPTION_FILTER_NONE),
                          AmbientModeChanged(true), AmbientModeChanged(false),
                          InterruptionFilterChanged(INTERRUPTION_FILTER_NONE)]);
      s.muteMode && Alpha(s.paints.hour.color) == OPAQUE && !ShowsMute(s.paints, s.muteMode)
  {
    var s0 := Created();
    var s1 := Step(s0, InterruptionFilterChanged(INTERRUPTION_FILTER_NONE));
    var s2 := Step(s1, AmbientModeChanged(true));
    var s3 := Step(s2, AmbientModeChanged(false));
    var s4 := Step(s3, InterruptionFilterChanged(INTERRUPTION_FILTER_NONE));
    assert s3.paints.hour.color == GRAY && s3.muteMode;
    assert s4 == s3;
    assert Alpha(GRAY) == OPAQUE;
    var events := [InterruptionFilterChanged(INTERRUPTION_FILTER_NONE),
                   AmbientModeChanged(true), AmbientModeChanged(false),
                   InterruptionFilterChanged(INTERRUPTION_FILTER_NONE)];
    assert Run(s0, events) == Run(s1, events[1..]);
    assert Run(s1, events[1..]) == Run(s2, events[2..]);
    assert Run(s2, events[2..]) == Run(s3, events[3..]);
    assert Run(s3, events[3..]) == Run(s4, []);
  }

  /** updateWatchHandStyle followed by the mute dimming the state calls for. */
  function RestyleKeepingMute(s: EngineState): (r: EngineState)
    ensures ShowsMute(r.paints, r.muteMode)
    ensures var styled := Styled(s.paints, s.ambient, s.palette);
      && Rgb(r.paints.hour.color) == Rgb(styled.hour.color)
      && Rgb(r.paints.minute.color) == Rgb(styled.minute.color)
      && Rgb(r.paints.second.color) == Rgb(styled.second.color)
      && r.paints.(hour := styled.hour, minute := styled.minute, second := styled.second) == styled
    ensures !s.muteMode ==> r.paints == Styled(s.paints, s.ambient, s.palette)
    ensures r.(paints := s.paints) == s
  {
    s.(paints := StyledKeepingMute(s.paints, s.ambient, s.palette, s.muteMode))
  }

  /** The callbacks with the style switch corrected to keep the mute dimming;
      every other callback is as written. */
  function StepKeepingMute(s: EngineState, e: Event): EngineState
  {
    match e
    case AmbientModeChanged(a) => UpdateTimer(RestyleKeepingMute(s.(ambient := a)))
    case PaletteGenerated(Some(sw)) =>
      RestyleKeepingMute(s.(palette := Palette(
        hand := sw.lightVibrant.GetOr(WHITE),
        highlight := sw.vibrant.GetOr(BLUE),
        shadow := sw.darkMuted.GetOr(BLACK))))
    case _ => Step(s, e)
  }

  function RunKeepingMute(s: EngineState, events: seq<Event>): EngineState
    decreases |events|
  {
    if events == [] then s else RunKeepingMute(StepKeepingMute(s, events[0]), events[1..])
  }

  /** Only the style switch, the palette and the interruption filter touch the paints. */
  lemma OtherCallbacksKeepPaints(s: EngineState, e: Event)
    requires !e.AmbientModeChanged? && !e.PaletteGenerated? && !e.InterruptionFilterChanged?
    ensures Step(s, e).paints == s.paints && Step(s, e).muteMode == s.muteMode
  {
    match e
    case VisibilityChanged(v) => assert Step(s, e) == OnVisibilityChanged(s, v);
    case PropertiesChanged(l, b) => assert Step(s, e) == OnPropertiesChanged(s, l, b);
    case SurfaceChanged(w, h) =>
    case TimerMessage(t) =>
    case TimeTick =>
    case Destroy => assert Step(s, e) == OnDestroy(s);
  }

  lemma FilterShowsMute(s: EngineState, f: int)
    requires ShowsMute(s.paints, s.muteMode)
    ensures var r := OnInterruptionFilterChanged(s, f); ShowsMute(r.paints, r.muteMode)
  {
  }

  lemma StepKeepingMuteShowsMute(s: EngineState, e: Event)
    requires ShowsMute(s.paints, s.muteMode)
    ensures ShowsMute(StepKeepingMute(s, e).paints, StepKeepingMute(s, e).muteMode)
  {
    if e.AmbientModeChanged? {
      var mid := RestyleKeepingMute(s.(ambient := e.inAmbientMode));
      assert StepKeepingMute(s, e) == UpdateTimer(mid);
    } else if e.PaletteGenerated? {
    } else if e.InterruptionFilterChanged? {
      FilterShowsMute(s, e.filter);
    } else {
      OtherCallbacksKeepPaints(s, e);
      assert StepKeepingMute(s, e) == Step(s, e);
    }
  }

  /** With the correction, a muted face shows dimmed hands after any trace of
      callbacks, ambient switches and palette arrivals included. */
  lemma {:induction false} RunKeepingMuteShowsMute(s: EngineState, events: seq<Event>)
    requires ShowsMute(s.paints, s.muteMode)
    ensures ShowsMute(RunKeepingMute(s, events).paints, RunKeepingMute(s, events).muteMode)
    decreases |events|
  {
    if events != [] {
      StepKeepingMuteShowsMute(s, events[0]);
      RunKeepingMuteShowsMute(StepKeepingMute(s, events[0]), events[1..]);
    }
  }
}
