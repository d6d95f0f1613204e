/** Per-frame arithmetic of onDraw and the geometry of onSurfaceChanged:
    which background is drawn, the hand angles, the hand lengths and which hands
    are drawn. Angles and lengths are exact reals. */
module Frame {

  /** The three backgrounds onDraw can paint; exactly one is chosen per frame. */
  datatype Background = SolidBlack | AmbientBitmap | NormalBitmap

  /** The background branch at the top of onDraw. */
  function ChooseBackground(ambient: bool, lowBitAmbient: bool, burnInProtection: bool): (b: Background)
    ensures b == NormalBitmap <==> !ambient
    ensures b == SolidBlack <==> ambient && (lowBitAmbient || burnInProtection)
    ensures b == AmbientBitmap <==> ambient && !lowBitAmbient && !burnInProtection
  {
    if ambient && (lowBitAmbient || burnInProtection) then SolidBlack
    else if ambient then AmbientBitmap
    else NormalBitmap
  }

  /** onSurfaceChanged rescales the ambient bitmap under the guard
      !mBurnInProtection && !mLowBitAmbient. */
  predicate RescalesAmbientBitmap(lowBitAmbient: bool, burnInProtection: bool)
  {
    !burnInProtection && !lowBitAmbient
  }

  /** onDraw's guard for the ambient bitmap and onSurfaceChanged's guard for
      rescaling it are the same condition on the device flags at the time each
      runs. (A later onPropertiesChanged can change the flags in between.) */
  lemma AmbientDrawGuardIsRescaleGuard(lowBitAmbient: bool, burnInProtection: bool)
    ensures ChooseBackground(true, lowBitAmbient, burnInProtection) == AmbientBitmap
        <==> RescalesAmbientBitmap(lowBitAmbient, burnInProtection)
  {
  }

  /** The fields of java.util.Calendar that onDraw reads: HOUR (0..11 on the
      12-hour clock), MINUTE, SECOND and MILLISECOND. */
  datatype ClockTime = ClockTime(hour: int, minute: int, second: int, millisecond: int)

  predicate ValidTime(t: ClockTime)
  {
    0 <= t.hour < 12 && 0 <= t.minute < 60 && 0 <= t.second < 60 && 0 <= t.millisecond < 1000
  }

  /** Hand rotations in degrees, clockwise from twelve o'clock. */
  datatype Angles = Angles(hours: real, minutes: real, seconds: real)

  /** secondsRotation = (SECOND + MILLISECOND / 1000) * 6, minutesRotation = MINUTE * 6,
      hoursRotation = HOUR * 30 + MINUTE / 2. */
  function HandAngles(t: ClockTime): (a: Angles)
    ensures ValidTime(t) ==>
      0.0 <= a.hours < 360.0 && 0.0 <= a.minutes < 360.0 && 0.0 <= a.seconds < 360.0
    ensures a.minutes == 12.0 * (a.hours - (t.hour * 30) as real)
  {
    var seconds := t.second as real + t.millisecond as real / 1000.0;
    Angles(
      hours := (t.hour * 30) as real + t.minute as real / 2.0,
      minutes := t.minute as real * 6.0,
      seconds := seconds * 6.0)
  }

  /** Every angle of a valid time lies in [0, 360). */
  lemma AnglesInRange(t: ClockTime)
    requires ValidTime(t)
    ensures var a := HandAngles(t);
      0.0 <= a.hours < 360.0 && 0.0 <= a.minutes < 360.0 && 0.0 <= a.seconds < 360.0
  {
  }

  /** Independent reading of the angles: each hand points at the fraction of its
      dial that has elapsed, the hour hand over 720 minutes, the minute hand over
      60 minutes and the second hand over 60000 milliseconds. */
  lemma AnglesAreDialFractions(t: ClockTime)
    ensures var a := HandAngles(t);
      && a.hours == 360.0 * ((t.hour * 60 + t.minute) as real / 720.0)
      && a.minutes == 360.0 * (t.minute as real / 60.0)
      && a.seconds == 360.0 * ((t.second * 1000 + t.millisecond) as real / 60000.0)
  {
  }

  /** The hour hand sweeps continuously: the last minute of an hour is half a
      degree short of the next hour's mark, and so is twelve o'clock modulo 360. */
  lemma HourHandContinuous(h: int)
    requires 0 <= h < 12
    ensures HandAngles(ClockTime(h, 59, 0, 0)).hours + 0.5
         == if h < 11 then HandAngles(ClockTime(h + 1, 0, 0, 0)).hours
            else HandAngles(ClockTime(0, 0, 0, 0)).hours + 360.0
  {
  }

  /** 3:30:00.000 puts the hands at 105, 180 and 0 degrees. */
  lemma HalfPastThree()
    ensures HandAngles(ClockTime(3, 30, 0, 0)) == Angles(105.0, 180.0, 0.0)
  {
  }

  /** Centre of the surface and the hand lengths computed by onSurfaceChanged. */
  datatype Geometry = Geometry(
    centerX: real, centerY: real,
    secondHandLength: real, minuteHandLength: real, hourHandLength: real)

  const SECOND_HAND_RATIO: real := 0.825
  const MINUTE_HAND_RATIO: real := 0.75
  const HOUR_HAND_RATIO: real := 0.52

  /** The centre is half the surface size; each hand is a fixed fraction of centerX. */
  function SurfaceGeometry(width: int, height: int): (g: Geometry)
    ensures 2.0 * g.centerX == width as real && 2.0 * g.centerY == height as real
    ensures width > 0 ==> 0.0 < g.hourHandLength < g.minuteHandLength < g.secondHandLength < g.centerX
    ensures width == 0 ==> g.hourHandLength == g.minuteHandLength == g.secondHandLength == 0.0
  {
    var cx := width as real / 2.0;
    Geometry(cx, height as real / 2.0, cx * SECOND_HAND_RATIO, cx * MINUTE_HAND_RATIO, cx * HOUR_HAND_RATIO)
  }

  /** A 400 x 400 surface: centre (200, 200), hands 165, 150 and 104 long. */
  lemma Surface400()
    ensures SurfaceGeometry(400, 400) == Geometry(200.0, 200.0, 165.0, 150.0, 104.0)
  {
  }

  datatype Hand = HourHand | MinuteHand | SecondHand

  /** One hand line: drawn rotated by angle, from the centre gap out to length. */
  datatype HandStroke = HandStroke(hand: Hand, angle: real, length: real)

  /** What a frame draws, leaving out the canvas calls themselves. */
  datatype FramePlan = FramePlan(background: Background, hands: seq<HandStroke>)

  /** onDraw's choices: the background, then the hour and minute hands and,
      only when not ambient, the second hand. */
  function Plan(ambient: bool, lowBitAmbient: bool, burnInProtection: bool,
                t: ClockTime, g: Geometry): (r: FramePlan)
    ensures r.background == ChooseBackground(ambient, lowBitAmbient, burnInProtection)
    ensures |r.hands| == if ambient then 2 else 3
    ensures r.hands[0] == HandStroke(HourHand, HandAngles(t).hours, g.hourHandLength)
    ensures r.hands[1] == HandStroke(MinuteHand, HandAngles(t).minutes, g.minuteHandLength)
    ensures (exists i :: 0 <= i < |r.hands| && r.hands[i].hand == SecondHand) <==> !ambient
    ensures !ambient ==> r.hands[2] == HandStroke(SecondHand, HandAngles(t).seconds, g.secondHandLength)
  {
    var a := HandAngles(t);
    var hourAndMinute := [HandStroke(HourHand, a.hours, g.hourHandLength),
                          HandStroke(MinuteHand, a.minutes, g.minuteHandLength)];
    var r := FramePlan(
      ChooseBackground(ambient, lowBitAmbient, burnInProtection),
      if ambient then hourAndMinute
      else hourAndMinute + [HandStroke(SecondHand, a.seconds, g.secondHandLength)]);
    assert !ambient ==> r.hands[2].hand == SecondHand;
    r
  }

  /** On a non-empty surface at a valid time every hand drawn stays inside the
      dial: its angle is in [0, 360) and its length is positive and below centerX. */
  lemma PlanStaysOnDial(ambient: bool, lowBitAmbient: bool, burnInProtection: bool,
                        t: ClockTime, width: int, height: int)
    requires ValidTime(t) && width > 0
    ensures var g := SurfaceGeometry(width, height);
      var r := Plan(ambient, lowBitAmbient, burnInProtection, t, g);
      forall i :: 0 <= i < |r.hands| ==>
        0.0 <= r.hands[i].angle < 360.0 && 0.0 < r.hands[i].length < g.centerX
  {
    AnglesInRange(t);
  }
}
