/** Colours and Paint styles of the watch face, and the two ways the engine
    restyles its paints: the ambient/interactive switch and mute-mode dimming. */
module Paints {

  /** A colour as Android packs it into a Java int: alpha in the top byte, then
      red, green and blue. Kept here as the unsigned 32-bit value of that int. */
  type Argb = c: int | 0 <= c < 0x1_0000_0000

  const ALPHA_UNIT: int := 0x100_0000

  // android.graphics.Color constants used by the engine
  const BLACK: Argb := 0xFF00_0000
  const GRAY: Argb := 0xFF88_8888
  const LTGRAY: Argb := 0xFFCC_CCCC
  const WHITE: Argb := 0xFFFF_FFFF
  const BLUE: Argb := 0xFF00_00FF
  const TRANSPARENT: Argb := 0

  /** Shadow radius passed to every setShadowLayer call (offsets are 0, 0). */
  const SHADOW_RADIUS: int := 6

  /** Alphas applied by mute-mode dimming. */
  const MUTED_HAND_ALPHA: nat := 100
  const MUTED_SECOND_ALPHA: nat := 80
  const OPAQUE: nat := 255

  function Alpha(c: Argb): (a: nat)
    ensures a < 256
    ensures a * ALPHA_UNIT <= c < (a + 1) * ALPHA_UNIT
  {
    c / ALPHA_UNIT
  }

  function Rgb(c: Argb): (rgb: nat)
    ensures rgb < ALPHA_UNIT
  {
    c % ALPHA_UNIT
  }

  /** Paint.setAlpha: replaces the alpha byte and keeps red, green and blue. */
  function WithAlpha(c: Argb, a: nat): (r: Argb)
    requires a < 256
    ensures Alpha(r) == a && Rgb(r) == Rgb(c)
  {
    a * ALPHA_UNIT + Rgb(c)
  }

  datatype Shadow = NoShadow | ShadowLayer(radius: int, dx: int, dy: int, color: Argb)

  /** The part of an android.graphics.Paint that the engine changes after creation.
      Paint.setColor writes the whole ARGB value, alpha included. */
  datatype Paint = Paint(color: Argb, antiAlias: bool, shadow: Shadow)

  /** The shadow layer every interactive hand gets: setShadowLayer(SHADOW_RADIUS, 0, 0, c). */
  function HandShadow(c: Argb): Shadow
  {
    ShadowLayer(SHADOW_RADIUS, 0, 0, c)
  }

  /** mWatchHandColor, mWatchHandHighlightColor and mWatchHandShadowColor. */
  datatype Palette = Palette(hand: Argb, highlight: Argb, shadow: Argb)

  /** The colours set in onCreate before any palette has been extracted. */
  const DEFAULT_PALETTE: Palette := Palette(GRAY, BLUE, LTGRAY)

  /** The seven Paint objects that the style switch touches. */
  datatype FacePaints = FacePaints(
    hour: Paint, minute: Paint, second: Paint, tickAndCircle: Paint,
    rectBkg: Paint, date: Paint, battery: Paint)

  /** The paints as onCreate leaves them (a new Paint is black, not antialiased,
      without shadow). */
  function CreatedPaints(): (p: FacePaints)
    ensures Styled(p, false, DEFAULT_PALETTE) == p
    ensures p.rectBkg == Paint(WHITE, false, NoShadow)
    ensures p.date.shadow == NoShadow && p.battery.shadow == NoShadow
  {
    var shadow := HandShadow(DEFAULT_PALETTE.shadow);
    FacePaints(
      hour := Paint(DEFAULT_PALETTE.hand, true, shadow),
      minute := Paint(DEFAULT_PALETTE.hand, true, shadow),
      second := Paint(DEFAULT_PALETTE.highlight, true, shadow),
      tickAndCircle := Paint(DEFAULT_PALETTE.hand, true, shadow),
      rectBkg := Paint(WHITE, false, NoShadow),
      date := Paint(DEFAULT_PALETTE.highlight, true, NoShadow),
      battery := Paint(DEFAULT_PALETTE.highlight, true, NoShadow))
  }

  /** updateWatchHandStyle as a function of the old paints. In ambient mode it
      greys the hands, blanks the date box, whitens the text, and turns off
      antialias and shadow for hour, minute, second and date only; otherwise it
      restores the palette colours, antialias on all six drawing paints and the
      shadow on the three hands and the ticks. */
  function Styled(p: FacePaints, ambient: bool, pal: Palette): (r: FacePaints)
    ensures UntouchedBy(r, ambient) == UntouchedBy(p, ambient)
    ensures Alpha(r.hour.color) == Alpha(if ambient then GRAY else pal.hand)
    ensures Alpha(r.minute.color) == Alpha(if ambient then GRAY else pal.hand)
    ensures Alpha(r.second.color) == Alpha(if ambient then GRAY else pal.highlight)
  {
    if ambient then
      p.(hour := Paint(GRAY, false, NoShadow),
         minute := Paint(GRAY, false, NoShadow),
         second := Paint(GRAY, false, NoShadow),
         tickAndCircle := p.tickAndCircle.(color := GRAY),
         rectBkg := p.rectBkg.(color := TRANSPARENT),
         date := Paint(WHITE, false, NoShadow),
         battery := p.battery.(color := WHITE))
    else
      p.(hour := Paint(pal.hand, true, HandShadow(pal.shadow)),
         minute := Paint(pal.hand, true, HandShadow(pal.shadow)),
         second := Paint(pal.highlight, true, HandShadow(pal.shadow)),
         tickAndCircle := Paint(pal.hand, true, HandShadow(pal.shadow)),
         rectBkg := p.rectBkg.(color := WHITE),
         date := p.date.(color := pal.highlight, antiAlias := true),
         battery := p.battery.(color := pal.highlight, antiAlias := true))
  }

  /** The attributes that updateWatchHandStyle does not write in the given mode. */
  datatype Untouched = Untouched(
    tickAntiAlias: Option<bool>, tickShadow: Option<Shadow>,
    rectBkgAntiAlias: bool, rectBkgShadow: Shadow,
    dateShadow: Option<Shadow>, batteryAntiAlias: Option<bool>, batteryShadow: Shadow)

  datatype Option<T> = None | Some(value: T) {
    function GetOr(default: T): T
    {
      if Some? then value else default
    }
  }

  function UntouchedBy(p: FacePaints, ambient: bool): Untouched
  {
    Untouched(
      if ambient then Some(p.tickAndCircle.antiAlias) else None,
      if ambient then Some(p.tickAndCircle.shadow) else None,
      p.rectBkg.antiAlias, p.rectBkg.shadow,
      if ambient then None else Some(p.date.shadow),
      if ambient then Some(p.battery.antiAlias) else None,
      p.battery.shadow)
  }

  /** The style switch is determined by the mode and the palette alone, except
      for the attributes it leaves alone: two paint sets end up equal exactly when
      they agree on those. */
  lemma StyleDependsOnlyOnModeAndPalette(p1: FacePaints, p2: FacePaints, ambient: bool, pal: Palette)
    ensures Styled(p1, ambient, pal) == Styled(p2, ambient, pal)
        <==> UntouchedBy(p1, ambient) == UntouchedBy(p2, ambient)
  {
    if Styled(p1, ambient, pal) == Styled(p2, ambient, pal) {
      var s1, s2 := Styled(p1, ambient, pal), Styled(p2, ambient, pal);
      assert s1.tickAndCircle == s2.tickAndCircle && s1.battery == s2.battery;
      assert s1.rectBkg == s2.rectBkg && s1.date == s2.date;
    }
  }

  /** What the style switch writes, mode by mode. */
  lemma StyleValues(p: FacePaints, ambient: bool, pal: Palette)
    ensures var s := Styled(p, ambient, pal);
      if ambient then
        && s.hour.color == s.minute.color == s.second.color == s.tickAndCircle.color == GRAY
        && s.date.color == s.battery.color == WHITE && s.rectBkg.color == TRANSPARENT
        && !s.hour.antiAlias && !s.minute.antiAlias && !s.second.antiAlias && !s.date.antiAlias
        && s.hour.shadow == s.minute.shadow == s.second.shadow == s.date.shadow == NoShadow
      else
        && s.hour.color == s.minute.color == s.tickAndCircle.color == pal.hand
        && s.second.color == s.date.color == s.battery.color == pal.highlight
        && s.rectBkg.color == WHITE
        && s.hour.antiAlias && s.minute.antiAlias && s.second.antiAlias
        && s.tickAndCircle.antiAlias && s.date.antiAlias && s.battery.antiAlias
        && s.hour.shadow == s.minute.shadow == s.second.shadow == s.tickAndCircle.shadow
           == HandShadow(pal.shadow)
  {
  }

  /** Applying the style twice in a row is the same as applying it once. */
  lemma StyleIdempotent(p: FacePaints, ambient: bool, pal: Palette)
    ensures Styled(Styled(p, ambient, pal), ambient, pal) == Styled(p, ambient, pal)
  {
  }

  /** Going to ambient mode and back restores the interactive style with the
      current palette (not the defaults), provided the date paint has no shadow,
      which holds from onCreate on because nothing ever gives it one. */
  lemma AmbientRoundTrip(p: FacePaints, pal: Palette)
    requires p.date.shadow == NoShadow
    ensures Styled(Styled(Styled(p, false, pal), true, pal), false, pal) == Styled(p, false, pal)
  {
  }

  /** The alpha onInterruptionFilterChanged gives the hour and minute hands. */
  function HandAlpha(mute: bool): nat
  {
    if mute then MUTED_HAND_ALPHA else OPAQUE
  }

  /** The alpha onInterruptionFilterChanged gives the second hand. */
  function SecondAlpha(mute: bool): nat
  {
    if mute then MUTED_SECOND_ALPHA else OPAQUE
  }

  /** The setAlpha calls of onInterruptionFilterChanged on the three hands. */
  function Dimmed(p: FacePaints, mute: bool): (r: FacePaints)
    ensures Alpha(r.hour.color) == Alpha(r.minute.color) == HandAlpha(mute)
    ensures Alpha(r.second.color) == SecondAlpha(mute)
    ensures Rgb(r.hour.color) == Rgb(p.hour.color) && Rgb(r.minute.color) == Rgb(p.minute.color)
    ensures Rgb(r.second.color) == Rgb(p.second.color)
    ensures r.(hour := p.hour, minute := p.minute, second := p.second) == p
    ensures r.hour.(color := p.hour.color) == p.hour && r.minute.(color := p.minute.color) == p.minute
    ensures r.second.(color := p.second.color) == p.second
  {
    p.(hour := p.hour.(color := WithAlpha(p.hour.color, HandAlpha(mute))),
       minute := p.minute.(color := WithAlpha(p.minute.color, HandAlpha(mute))),
       second := p.second.(color := WithAlpha(p.second.color, SecondAlpha(mute))))
  }

  /** The hands show the dimming that the mute state calls for. */
  ghost predicate ShowsMute(p: FacePaints, mute: bool)
  {
    mute ==> Alpha(p.hour.color) == MUTED_HAND_ALPHA && Alpha(p.minute.color) == MUTED_HAND_ALPHA
             && Alpha(p.second.color) == MUTED_SECOND_ALPHA
  }

  /** As written, the style switch overwrites the hands' alpha through setColor:
      a muted face that changes mode shows its hands at the palette colour's alpha. */
  lemma StyleDropsMuteDimming(p: FacePaints, pal: Palette)
    requires ShowsMute(p, true)
    requires Alpha(pal.hand) == OPAQUE
    ensures !ShowsMute(Styled(p, false, pal), true)
    ensures !ShowsMute(Styled(p, true, pal), true)
  {
    assert Alpha(GRAY) == OPAQUE;
  }

  /** The style switch with the mute dimming applied again afterwards. */
  function StyledKeepingMute(p: FacePaints, ambient: bool, pal: Palette, mute: bool): (r: FacePaints)
    ensures ShowsMute(r, mute)
    ensures var s := Styled(p, ambient, pal);
      && Rgb(r.hour.color) == Rgb(s.hour.color) && Rgb(r.minute.color) == Rgb(s.minute.color)
      && Rgb(r.second.color) == Rgb(s.second.color)
      && r.hour.(color := s.hour.color) == s.hour && r.minute.(color := s.minute.color) == s.minute
      && r.second.(color := s.second.color) == s.second
      && r.(hour := s.hour, minute := s.minute, second := s.second) == s
    ensures !mute ==> r == Styled(p, ambient, pal)
  {
    if mute then Dimmed(Styled(p, ambient, pal), true) else Styled(p, ambient, pal)
  }

  /** The corrected style switch keeps the idempotence of the original. */
  lemma StyledKeepingMuteIdempotent(p: FacePaints, ambient: bool, pal: Palette, mute: bool)
    ensures StyledKeepingMute(StyledKeepingMute(p, ambient, pal, mute), ambient, pal, mute)
         == StyledKeepingMute(p, ambient, pal, mute)
  {
    var once := StyledKeepingMute(p, ambient, pal, mute);
    if mute {
      var s := Styled(p, ambient, pal);
      assert Styled(once, ambient, pal) == s;
    }
  }
}
