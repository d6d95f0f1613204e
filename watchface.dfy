/** WTMWatchFaceService.Engine: the engine's fields and the callbacks that update
    them in place. Each callback is proved to move State() exactly as the matching
    function of Lifecycle does, so what Lifecycle proves about traces of callbacks
    from onCreate on (one pending update at most, alternating registrations, the
    mute finding) holds of the engine. */
module WatchFace {
  import opened Paints
  import opened Frame
  import opened Timer
  import opened Lifecycle

  class Engine {
    var visible: bool
    var ambient: bool
    var lowBitAmbient: bool
    var burnInProtection: bool
    var muteMode: bool
    var registeredTimeZoneReceiver: bool

    /** The pending messages of mUpdateTimeHandler. */
    var pending: seq<Message>

    /** mWatchHandColor, mWatchHandHighlightColor and mWatchHandShadowColor. */
    var palette: Palette

    /** The seven Paint objects: mHourPaint, mMinutePaint, mSecondPaint,
        mTickAndCirclePaint, mRectBkgPaint, mDatePaint and mBatteryPaint. */
    var paints: FacePaints

    /** mCenterX, mCenterY and the three hand lengths. */
    var geometry: Geometry

    /** Calls to the platform's registerReceiver / unregisterReceiver, in order. */
    ghost var receiverCalls: seq<ReceiverCall>
    /** Number of invalidate() calls. */
    ghost var redraws: nat

    /** The engine's fields as a value of the Lifecycle model. */
    ghost function State(): EngineState
      reads this
    {
      EngineState(
        visible, ambient, lowBitAmbient, burnInProtection, muteMode, registeredTimeZoneReceiver,
        pending, palette, paints, geometry, receiverCalls, redraws)
    }

    /** onCreate: the default colours and the Paint objects set up with them. */
    constructor ()
      ensures State() == Created()
      ensures Inv(State())
    {
      visible, ambient, lowBitAmbient, burnInProtection := false, false, false, false;
      muteMode, registeredTimeZoneReceiver := false, false;
      pending := [];
      palette := DEFAULT_PALETTE;
      paints := CreatedPaints();
      geometry := Geometry(0.0, 0.0, 0.0, 0.0, 0.0);
      receiverCalls, redraws := [], 0;
      new;
      CreatedSatisfiesInv();
    }

    /** shouldTimerBeRunning; isVisible() is the visible field. */
    predicate ShouldTimerBeRunning(): (b: bool)
      reads this
      ensures b == Lifecycle.ShouldTimerBeRunning(State())
    {
      visible && !ambient
    }

    /** updateTimer: cancel every pending update, then send one if the timer should run. */
    method UpdateTimer()
      modifies this`pending
      ensures State() == Lifecycle.UpdateTimer(old(State()))
    {
      pending := RemoveMessages(pending, MSG_UPDATE_TIME);
      if ShouldTimerBeRunning() {
        pending := Send(pending, MSG_UPDATE_TIME, 0);
      }
    }

    /** mUpdateTimeHandler.handleMessage for the head pending message; timeMs is
        System.currentTimeMillis(). */
    method HandleMessage(timeMs: int)
      requires pending != []
      modifies this
      ensures State() == Lifecycle.HandleMessage(old(State()), timeMs)
    {
      pending := pending[1..];
      redraws := redraws + 1;
      if ShouldTimerBeRunning() {
        pending := Send(pending, MSG_UPDATE_TIME, UpdateDelay(timeMs));
      }
    }

    /** onDestroy: cancel every pending update. */
    method OnDestroy()
      modifies this
      ensures State() == Lifecycle.OnDestroy(old(State()))
    {
      pending := RemoveMessages(pending, MSG_UPDATE_TIME);
    }

    /** onPropertiesChanged: the device's low-bit-ambient and burn-in flags. */
    method OnPropertiesChanged(lowBit: bool, burnIn: bool)
      modifies this
      ensures State() == Lifecycle.OnPropertiesChanged(old(State()), lowBit, burnIn)
    {
      lowBitAmbient := lowBit;
      burnInProtection := burnIn;
    }

    /** updateWatchHandStyle: the setColor / setAntiAlias / shadow calls, paint by
        paint (made on local copies, then stored). */
    method UpdateWatchHandStyle()
      modifies this`paints
      ensures paints == Styled(old(paints), ambient, palette)
    {
      var hour, minute, second, tick := paints.hour, paints.minute, paints.second, paints.tickAndCircle;
      var rectBkg, date, battery := paints.rectBkg, paints.date, paints.battery;
      if ambient {
        hour := hour.(color := GRAY);
        minute := minute.(color := GRAY);
        second := second.(color := GRAY);
        tick := tick.(color := GRAY);
        rectBkg := rectBkg.(color := TRANSPARENT);
        date := date.(color := WHITE);
        battery := battery.(color := WHITE);

        hour := hour.(antiAlias := false);
        minute := minute.(antiAlias := false);
        second := second.(antiAlias := false);
        date := date.(antiAlias := false);

        hour := hour.(shadow := NoShadow);
        minute := minute.(shadow := NoShadow);
        second := second.(shadow := NoShadow);
        date := date.(shadow := NoShadow);
      } else {
        hour := hour.(color := palette.hand);
        minute := minute.(color := palette.hand);
        second := second.(color := palette.highlight);
        tick := tick.(color := palette.hand);
        rectBkg := rectBkg.(color := WHITE);
        date := date.(color := palette.highlight);
        battery := battery.(color := palette.highlight);

        hour := hour.(antiAlias := true);
        minute := minute.(antiAlias := true);
        second := second.(antiAlias := true);
        tick := tick.(antiAlias := true);
        date := date.(antiAlias := true);
        battery := battery.(antiAlias := true);

        var shadow := ShadowLayer(SHADOW_RADIUS, 0, 0, palette.shadow);
        hour := hour.(shadow := shadow);
        minute := minute.(shadow := shadow);
        second := second.(shadow := shadow);
        tick := tick.(shadow := shadow);
      }
      paints := FacePaints(hour, minute, second, tick, rectBkg, date, battery);
    }

    /** onTimeTick: request a redraw. */
    method OnTimeTick()
      modifies this`redraws
      ensures State() == Lifecycle.OnTimeTick(old(State()))
    {
      redraws := redraws + 1;
    }

    /** onAmbientModeChanged: store the mode, restyle, restart or stop the timer. */
    method OnAmbientModeChanged(inAmbientMode: bool)
      modifies this
      ensures State() == Lifecycle.OnAmbientModeChanged(old(State()), inAmbientMode)
    {
      ambient := inAmbientMode;
      UpdateWatchHandStyle();
      UpdateTimer();
    }

    /** The effect of the palette callback registered in onCreate. */
    method OnPaletteGenerated(swatches: Option<Swatches>)
      modifies this
      ensures State() == Lifecycle.OnPaletteGenerated(old(State()), swatches)
    {
      if swatches.Some? {
        palette := palette.(highlight := swatches.value.vibrant.GetOr(BLUE));
        palette := palette.(hand := swatches.value.lightVibrant.GetOr(WHITE));
        palette := palette.(shadow := swatches.value.darkMuted.GetOr(BLACK));
        UpdateWatchHandStyle();
      }
    }

    /** onInterruptionFilterChanged: dim the hands in mute mode, only on a change. */
    method OnInterruptionFilterChanged(interruptionFilter: int)
      modifies this
      ensures State() == Lifecycle.OnInterruptionFilterChanged(old(State()), interruptionFilter)
    {
      var inMuteMode := interruptionFilter == INTERRUPTION_FILTER_NONE;
      if muteMode != inMuteMode {
        muteMode := inMuteMode;
        var handAlpha, secondAlpha := HandAlpha(inMuteMode), SecondAlpha(inMuteMode);
        paints := paints.(hour := paints.hour.(color := WithAlpha(paints.hour.color, handAlpha)));
        paints := paints.(minute := paints.minute.(color := WithAlpha(paints.minute.color, handAlpha)));
        paints := paints.(second := paints.second.(color := WithAlpha(paints.second.color, secondAlpha)));
        redraws := redraws + 1;
      }
    }

    /** onSurfaceChanged: the centre and the hand lengths. */
    method OnSurfaceChanged(width: int, height: int)
      modifies this`geometry
      ensures State() == Lifecycle.OnSurfaceChanged(old(State()), width, height)
    {
      var cx := width as real / 2.0;
      var cy := height as real / 2.0;
      geometry := Geometry(cx, cy, cx * SECOND_HAND_RATIO, cx * MINUTE_HAND_RATIO, cx * HOUR_HAND_RATIO);
    }

    /** registerReceiver: register the time-zone receiver unless already registered. */
    method RegisterReceiver()
      modifies this`registeredTimeZoneReceiver, this`receiverCalls
      ensures State() == Lifecycle.RegisterReceiver(old(State()))
    {
      if !registeredTimeZoneReceiver {
        registeredTimeZoneReceiver := true;
        receiverCalls := receiverCalls + [RegisterTimeZone];
      }
    }

    /** unregisterReceiver: unregister the time-zone receiver if registered. */
    method UnregisterReceiver()
      modifies this`registeredTimeZoneReceiver, this`receiverCalls
      ensures State() == Lifecycle.UnregisterReceiver(old(State()))
    {
      if registeredTimeZoneReceiver {
        registeredTimeZoneReceiver := false;
        receiverCalls := receiverCalls + [UnregisterTimeZone];
      }
    }

    /** onVisibilityChanged: (un)register the receiver, then restart or stop the timer. */
    method OnVisibilityChanged(isVisible: bool)
      modifies this
      ensures State() == Lifecycle.OnVisibilityChanged(old(State()), isVisible)
    {
      visible := isVisible;
      if isVisible {
        RegisterReceiver();
        redraws := redraws + 1;
      } else {
        UnregisterReceiver();
      }
      UpdateTimer();
    }

    /** The choices onDraw makes for a frame at calendar time t: the background,
        and the hands with their rotations and lengths. */
    method OnDraw(t: ClockTime) returns (plan: FramePlan)
      ensures plan == Plan(ambient, lowBitAmbient, burnInProtection, t, geometry)
    {
      var background;
      if ambient && (lowBitAmbient || burnInProtection) {
        background := SolidBlack;
      } else if ambient {
        background := AmbientBitmap;
      } else {
        background := NormalBitmap;
      }
      var seconds := t.second as real + t.millisecond as real / 1000.0;
      var secondsRotation := seconds * 6.0;
      var minutesRotation := t.minute as real * 6.0;
      var hourHandOffset := t.minute as real / 2.0;
      var hoursRotation := (t.hour * 30) as real + hourHandOffset;
      var hands := [HandStroke(HourHand, hoursRotation, geometry.hourHandLength),
                    HandStroke(MinuteHand, minutesRotation, geometry.minuteHandLength)];
      if !ambient {
        hands := hands + [HandStroke(SecondHand, secondsRotation, geometry.secondHandLength)];
      }
      plan := FramePlan(background, hands);
    }
  }
}
