/** The view's configuration records (`Config`, `DrawableConfig`,
    `AlphaConfig`), their documented defaults, the two ways `start` replaces
    them, and the mapping from the integer codes of the declarative attributes
    to values. */
module Configuration {
  import opened Base

  // Constants.AnimationViewDefault
  const DEFAULT_DURATION: int := 5000
  const DEFAULT_SPAWN_DELAY: int := 500
  const DEFAULT_SIMULATE_3D: bool := false
  const DEFAULT_SIMULATE_WIND: bool := false
  const DEFAULT_SIMULATE_WIGGLE: bool := false
  const DEFAULT_DRAWABLE_HEIGHT: int := 50
  const DEFAULT_DRAWABLE_WIDTH: int := 50
  const DEFAULT_ALPHA: bool := false
  const DEFAULT_ALPHA_FROM: real := 1.0
  const DEFAULT_ALPHA_TO: real := 0.0
  const DEFAULT_DELAY: int := 0

  // Constants.Direction
  const DIRECTION_TOP_TO_BOTTOM: int := 0
  const DIRECTION_BOTTOM_TO_TOP: int := 1

  // Constants.Interpolator
  const INTERPOLATOR_LINEAR: int := 0
  const INTERPOLATOR_SLOW_IN_FAST_OUT: int := 1

  /** The two easing curves the attribute codes can name; their curves are
      the host toolkit's and are not modelled. */
  datatype Interpolator = LinearInterpolator | FastOutSlowInInterpolator

  datatype Direction = TopToBottom | BottomToTop

  /** An image supplied by the host; only its identity matters here. */
  datatype Drawable = Drawable(handle: nat)

  datatype DrawableConfig = DrawableConfig(
    drawable: Option<Drawable>,
    drawableHeight: int,
    drawableWidth: int)

  datatype AlphaConfig = AlphaConfig(
    alpha: bool,
    from: real,
    to: real,
    duration: int,
    delay: int)

  /** `direction` stays the raw integer code: it is only checked when a
      translate animation is built. `interpolator` is `None` for Kotlin's
      `null` default. */
  datatype Config = Config(
    direction: int,
    duration: int,
    spawnDelay: int,
    simulate3D: bool,
    simulateWiggle: bool,
    simulateWind: bool,
    interpolator: Option<Interpolator>,
    drawableConfig: DrawableConfig,
    alphaConfig: AlphaConfig)

  const DefaultDrawableConfig: DrawableConfig :=
    DrawableConfig(None, DEFAULT_DRAWABLE_HEIGHT, DEFAULT_DRAWABLE_WIDTH)

  const DefaultAlphaConfig: AlphaConfig :=
    AlphaConfig(DEFAULT_ALPHA, DEFAULT_ALPHA_FROM, DEFAULT_ALPHA_TO, DEFAULT_DURATION, DEFAULT_DELAY)

  /** `Config()` with every parameter left at its default. */
  const DefaultConfig: Config :=
    Config(DIRECTION_TOP_TO_BOTTOM, DEFAULT_DURATION, DEFAULT_SPAWN_DELAY,
           DEFAULT_SIMULATE_3D, DEFAULT_SIMULATE_WIGGLE, DEFAULT_SIMULATE_WIND,
           None, DefaultDrawableConfig, DefaultAlphaConfig)

  /** `config.copy(drawableConfig = d)`, as done by `start(drawableConfig)`. */
  function WithDrawable(c: Config, d: DrawableConfig): (r: Config)
    ensures r.drawableConfig == d
    ensures r.direction == c.direction && r.duration == c.duration
    ensures r.spawnDelay == c.spawnDelay && r.simulate3D == c.simulate3D
    ensures r.simulateWiggle == c.simulateWiggle && r.simulateWind == c.simulateWind
    ensures r.interpolator == c.interpolator && r.alphaConfig == c.alphaConfig
  {
    c.(drawableConfig := d)
  }

  /** Replacing the drawable twice keeps only the second one; replacing it
      with the current one changes nothing. */
  lemma WithDrawableOverrides(c: Config, d1: DrawableConfig, d2: DrawableConfig)
    ensures WithDrawable(WithDrawable(c, d1), d2) == WithDrawable(c, d2)
    ensures WithDrawable(c, c.drawableConfig) == c
  {
  }

  /** The `when` over the interpolator attribute code in `init`. */
  function InterpolatorFromCode(code: int): (r: Result<Interpolator, Failure>)
    ensures r.Ok? <==> code == INTERPOLATOR_LINEAR || code == INTERPOLATOR_SLOW_IN_FAST_OUT
    ensures r.Err? ==> r.error == AnimationViewException("Undefined interpolator")
  {
    if code == INTERPOLATOR_SLOW_IN_FAST_OUT then Ok(FastOutSlowInInterpolator)
    else if code == INTERPOLATOR_LINEAR then Ok(LinearInterpolator)
    else Err(AnimationViewException("Undefined interpolator"))
  }

  /** The attribute code that names an interpolator. */
  function InterpolatorCode(i: Interpolator): int {
    match i
    case LinearInterpolator => INTERPOLATOR_LINEAR
    case FastOutSlowInInterpolator => INTERPOLATOR_SLOW_IN_FAST_OUT
  }

  /** Codes and interpolators correspond one to one. */
  lemma InterpolatorCodeRoundTrip(i: Interpolator, code: int)
    ensures InterpolatorFromCode(InterpolatorCode(i)) == Ok(i)
    ensures InterpolatorFromCode(code).Ok? ==> InterpolatorCode(InterpolatorFromCode(code).value) == code
  {
  }

  /** The `when (config.direction)` in `getTranslateAnimation`. */
  function DirectionFromCode(code: int): (r: Result<Direction, Failure>)
    ensures r.Ok? <==> code == DIRECTION_TOP_TO_BOTTOM || code == DIRECTION_BOTTOM_TO_TOP
    ensures r.Err? ==> r.error == AnimationViewException("Invalid direction")
  {
    if code == DIRECTION_BOTTOM_TO_TOP then Ok(BottomToTop)
    else if code == DIRECTION_TOP_TO_BOTTOM then Ok(TopToBottom)
    else Err(AnimationViewException("Invalid direction"))
  }

  function DirectionCode(d: Direction): int {
    match d
    case TopToBottom => DIRECTION_TOP_TO_BOTTOM
    case BottomToTop => DIRECTION_BOTTOM_TO_TOP
  }

  lemma DirectionCodeRoundTrip(d: Direction, code: int)
    ensures DirectionFromCode(DirectionCode(d)) == Ok(d)
    ensures DirectionFromCode(code).Ok? ==> DirectionCode(DirectionFromCode(code).value) == code
  {
  }

  /** A drawable resource id: the library's own default icon or one of the app's. */
  datatype DrawableRes = IcAndroidAnimationView | AppDrawable(id: int)

  /** The declarative attributes of the view; `None` is an attribute that is
      absent from the markup. The alpha delay is read as a float and
      converted to a whole number before it gets here. */
  datatype StyledAttributes = StyledAttributes(
    drawableId: Option<DrawableRes>,
    interpolator: Option<int>,
    direction: Option<int>,
    duration: Option<int>,
    spawnDelay: Option<int>,
    simulate3D: Option<bool>,
    simulateWind: Option<bool>,
    simulateWiggle: Option<bool>,
    drawableHeight: Option<int>,
    drawableWidth: Option<int>,
    alphaAnimation: Option<bool>,
    alphaFromAnimation: Option<real>,
    alphaToAnimation: Option<real>,
    alphaDurationAnimation: Option<int>,
    alphaDelayAnimation: Option<int>)

  const NoAttributes: StyledAttributes :=
    StyledAttributes(None, None, None, None, None, None, None, None, None, None, None, None, None, None, None)

  /** The value of an attribute, or its default when it is absent. */
  function Attr<T>(o: Option<T>, default: T): T {
    match o
    case Some(v) => v
    case None => default
  }

  /** `init(attrs)`: build the configuration from the attributes.
      `getDrawable` stands for resolving a resource id through the host. Only
      the interpolator code is validated; the direction code is stored as is. */
  function FromAttributes(a: StyledAttributes, getDrawable: DrawableRes -> Option<Drawable>): (r: Result<Config, Failure>)
    ensures r.Err? <==> a.interpolator.Some? && a.interpolator.value != 0 && a.interpolator.value != 1
    ensures r.Err? ==> r.error == AnimationViewException("Undefined interpolator")
    ensures r.Ok? ==> r.value.interpolator == Some(InterpolatorFromCode(Attr(a.interpolator, INTERPOLATOR_LINEAR)).value)
    ensures r.Ok? ==> r.value.direction == Attr(a.direction, DIRECTION_TOP_TO_BOTTOM)
    ensures r.Ok? ==> r.value.duration == Attr(a.duration, DEFAULT_DURATION)
    ensures r.Ok? ==> r.value.spawnDelay == Attr(a.spawnDelay, DEFAULT_SPAWN_DELAY)
    ensures r.Ok? ==> r.value.simulate3D == Attr(a.simulate3D, DEFAULT_SIMULATE_3D)
    ensures r.Ok? ==> r.value.simulateWind == Attr(a.simulateWind, DEFAULT_SIMULATE_WIND)
    ensures r.Ok? ==> r.value.simulateWiggle == Attr(a.simulateWiggle, DEFAULT_SIMULATE_WIGGLE)
    ensures r.Ok? ==> r.value.drawableConfig == DrawableConfig(
      getDrawable(Attr(a.drawableId, IcAndroidAnimationView)),
      Attr(a.drawableHeight, DEFAULT_DRAWABLE_HEIGHT),
      Attr(a.drawableWidth, DEFAULT_DRAWABLE_WIDTH))
    ensures r.Ok? ==> r.value.alphaConfig == AlphaConfig(
      Attr(a.alphaAnimation, DEFAULT_ALPHA),
      Attr(a.alphaFromAnimation, DEFAULT_ALPHA_FROM),
      Attr(a.alphaToAnimation, DEFAULT_ALPHA_TO),
      Attr(a.alphaDurationAnimation, DEFAULT_DURATION),
      Attr(a.alphaDelayAnimation, DEFAULT_DELAY))
  {
    match InterpolatorFromCode(Attr(a.interpolator, INTERPOLATOR_LINEAR))
    case Err(e) => Err(e)
    case Ok(interpolator) =>
      Ok(Config(
        Attr(a.direction, DIRECTION_TOP_TO_BOTTOM),
        Attr(a.duration, DEFAULT_DURATION),
        Attr(a.spawnDelay, DEFAULT_SPAWN_DELAY),
        Attr(a.simulate3D, DEFAULT_SIMULATE_3D),
        Attr(a.simulateWiggle, DEFAULT_SIMULATE_WIGGLE),
        Attr(a.simulateWind, DEFAULT_SIMULATE_WIND),
        Some(interpolator),
        DrawableConfig(
          getDrawable(Attr(a.drawableId, IcAndroidAnimationView)),
          Attr(a.drawableHeight, DEFAULT_DRAWABLE_HEIGHT),
          Attr(a.drawableWidth, DEFAULT_DRAWABLE_WIDTH)),
        AlphaConfig(
          Attr(a.alphaAnimation, DEFAULT_ALPHA),
          Attr(a.alphaFromAnimation, DEFAULT_ALPHA_FROM),
          Attr(a.alphaToAnimation, DEFAULT_ALPHA_TO),
          Attr(a.alphaDurationAnimation, DEFAULT_DURATION),
          Attr(a.alphaDelayAnimation, DEFAULT_DELAY))))
  }

  /** Markup without any attribute gives the record defaults, except that the
      interpolator is an explicit linear one (the record's default is `null`)
      and the drawable is the library's default icon. */
  lemma NoAttributesGiveDefaults(getDrawable: DrawableRes -> Option<Drawable>)
    ensures FromAttributes(NoAttributes, getDrawable) ==
      Ok(DefaultConfig.(interpolator := Some(LinearInterpolator),
                        drawableConfig := DefaultDrawableConfig.(drawable := getDrawable(IcAndroidAnimationView))))
  {
  }

  /** An out-of-range direction code is accepted at construction; it only
      fails later, when a spawned element's translate animation is built. */
  lemma InvalidDirectionAcceptedAtConstruction(a: StyledAttributes, getDrawable: DrawableRes -> Option<Drawable>)
    requires InterpolatorFromCode(Attr(a.interpolator, INTERPOLATOR_LINEAR)).Ok?
    requires a.direction.Some? && DirectionFromCode(a.direction.value).Err?
    ensures FromAttributes(a, getDrawable).Ok?
    ensures DirectionFromCode(FromAttributes(a, getDrawable).value.direction).Err?
  {
  }
}
