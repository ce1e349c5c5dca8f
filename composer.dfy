/** What one spawned element looks like: its size, its horizontal place and
    the set of animations attached to it, computed from the configuration,
    the container's measured size and the random choices made on the way
    (`initAnimation`, `getTranslateAnimation`, `getAlphaAnimation`,
    `getSimulateWindAnimation`, `getSimulateWiggleAnimation`). */
module Composer {
  import opened Base
  import opened Configuration

  /** `val animations = 4` in both rotation effects. */
  const SEGMENTS: nat := 4

  datatype Effect = Wind | Wiggle

  /** A `RotateAnimation(fromDegrees, toDegrees)` with its timing. All angles
      the source produces are whole numbers of degrees. */
  datatype Rotation = Rotation(fromDegrees: int, toDegrees: int, duration: int, startOffset: int)

  datatype Animation =
    | Translate(fromYDelta: real, toYDelta: real, duration: int)
    | Fade(fromAlpha: real, toAlpha: real, startOffset: int, duration: int)
    | Rotations(effect: Effect, segments: seq<Rotation>)

  /** The `AnimationSet` attached to an element, children in the order added. */
  datatype AnimationSet = AnimationSet(interpolator: Option<Interpolator>, animations: seq<Animation>)

  /** The element's `LayoutParams` (width, height, left margin) and its image. */
  datatype ElementLayout = ElementLayout(width: int, height: int, leftMargin: int, image: Option<Drawable>)

  /** The outcome of `random()` at each place the spawn draws one:
      the size divisor (`(1..5)`), the left margin (`(0..maxMargin)`), the four
      wind steps (`(2..4)`, one per segment) and the two wiggle angles
      (`(2..5)`, drawn in segments 0 and 2 only). */
  datatype RandomPicks = RandomPicks(sizeDivisor: int, leftMargin: int, windSteps: seq<int>, wiggleAngles: seq<int>)

  /** The size divisor: random when `simulate3D`, otherwise 1. */
  function SizeDivisor(c: Config, p: RandomPicks): (d: int)
    ensures !c.simulate3D ==> d == 1
    ensures c.simulate3D ==> d == p.sizeDivisor
    ensures 1 <= p.sizeDivisor <= 5 ==> 1 <= d <= 5
  {
    if c.simulate3D then p.sizeDivisor else 1
  }

  /** `LayoutParams(drawableHeight / size, drawableWidth / size)`: the first
      argument, the width, is computed from the drawable's height. */
  function LayoutWidth(c: Config, divisor: int): int
    requires divisor > 0
  {
    Quot(c.drawableConfig.drawableHeight, divisor)
  }

  function LayoutHeight(c: Config, divisor: int): int
    requires divisor > 0
  {
    Quot(c.drawableConfig.drawableWidth, divisor)
  }

  /** `measuredWidth - layoutParams.width`, the last admissible left margin. */
  function MaxMargin(c: Config, measuredWidth: int, p: RandomPicks): int
    requires 1 <= p.sizeDivisor <= 5
  {
    measuredWidth - LayoutWidth(c, SizeDivisor(c, p))
  }

  /** Every pick lies in the range it is drawn from. The margin pick is free
      when its range is empty, since `random()` then throws. */
  predicate PicksInRange(c: Config, measuredWidth: int, p: RandomPicks) {
    && 1 <= p.sizeDivisor <= 5
    && |p.windSteps| == SEGMENTS
    && (forall i :: 0 <= i < |p.windSteps| ==> 2 <= p.windSteps[i] <= 4)
    && |p.wiggleAngles| == 2
    && (forall i :: 0 <= i < |p.wiggleAngles| ==> 2 <= p.wiggleAngles[i] <= 5)
    && (0 <= MaxMargin(c, measuredWidth, p) ==> 0 <= p.leftMargin <= MaxMargin(c, measuredWidth, p))
  }

  /** Size and left margin of a new element; fails when the element is wider
      than the container, because the margin range is then empty. */
  function ElementLayoutFor(c: Config, measuredWidth: int, p: RandomPicks): (r: Result<ElementLayout, Failure>)
    requires PicksInRange(c, measuredWidth, p)
    ensures r.Err? <==> measuredWidth < LayoutWidth(c, SizeDivisor(c, p))
    ensures r.Err? ==> r.error == EmptyRangeRandom(0, MaxMargin(c, measuredWidth, p))
    ensures r.Ok? ==> 0 <= r.value.leftMargin && r.value.leftMargin + r.value.width <= measuredWidth
    ensures r.Ok? ==> r.value.image == c.drawableConfig.drawable
  {
    var size := SizeDivisor(c, p);
    var maxMargin := MaxMargin(c, measuredWidth, p);
    if maxMargin < 0 then Err(EmptyRangeRandom(0, maxMargin))
    else Ok(ElementLayout(LayoutWidth(c, size), LayoutHeight(c, size), p.leftMargin, c.drawableConfig.drawable))
  }

  /** Without `simulate3D` the element has the drawable's size (width and
      height swapped); with it, each side is the drawable's divided by one
      divisor in 1..5, rounded down. */
  lemma ElementSize(c: Config, measuredWidth: int, p: RandomPicks)
    requires PicksInRange(c, measuredWidth, p)
    requires ElementLayoutFor(c, measuredWidth, p).Ok?
    ensures var l := ElementLayoutFor(c, measuredWidth, p).value;
      && (!c.simulate3D ==> l.width == c.drawableConfig.drawableHeight && l.height == c.drawableConfig.drawableWidth)
      && (c.drawableConfig.drawableHeight >= 0 && c.drawableConfig.drawableWidth >= 0 ==>
          exists d :: 1 <= d <= 5
            && l.width * d <= c.drawableConfig.drawableHeight < (l.width + 1) * d
            && l.height * d <= c.drawableConfig.drawableWidth < (l.height + 1) * d)
  {
    var d := SizeDivisor(c, p);
    var l := ElementLayoutFor(c, measuredWidth, p).value;
    assert l.width == Quot(c.drawableConfig.drawableHeight, d);
    assert l.height == Quot(c.drawableConfig.drawableWidth, d);
    if c.drawableConfig.drawableHeight >= 0 && c.drawableConfig.drawableWidth >= 0 {
      QuotFloor(c.drawableConfig.drawableHeight, d);
      QuotFloor(c.drawableConfig.drawableWidth, d);
    }
  }

  /** `(config.duration * 1.25f).toLong()`, computed exactly. */
  function TranslateDuration(duration: int): (r: int)
    ensures duration >= 0 ==> duration <= r && 4 * r <= 5 * duration < 4 * r + 4
    ensures duration < 0 ==> r <= duration && 4 * r - 4 < 5 * duration <= 4 * r
  {
    Truncate(duration as real * 1.25)
  }

  /** `getTranslateAnimation`, vertical deltas only. */
  function TranslateAnimation(c: Config, measuredHeight: int): (r: Result<Animation, Failure>)
    ensures r.Err? <==> DirectionFromCode(c.direction).Err?
    ensures r.Err? ==> r.error == AnimationViewException("Invalid direction")
    ensures r.Ok? ==> r.value.Translate? && r.value.duration == TranslateDuration(c.duration)
  {
    var bottom := measuredHeight as real + c.drawableConfig.drawableHeight as real;
    var top := 0.0 - c.drawableConfig.drawableHeight as real;
    match DirectionFromCode(c.direction)
    case Ok(BottomToTop) => Ok(Translate(bottom, top * 1.25, TranslateDuration(c.duration)))
    case Ok(TopToBottom) => Ok(Translate(top, bottom * 1.25, TranslateDuration(c.duration)))
    case Err(e) => Err(e)
  }

  /** Where the translate starts and ends, for either direction: top to
      bottom from `-h` to `(H + h) * 1.25`, bottom to top from `H + h` to
      `-h * 1.25`, for the drawable's height `h` and the container's `H`. */
  lemma TranslateEndpoints(c: Config, measuredHeight: int)
    requires DirectionFromCode(c.direction).Ok?
    ensures var t := TranslateAnimation(c, measuredHeight).value;
      var h := c.drawableConfig.drawableHeight as real;
      var H := measuredHeight as real;
      && (c.direction == DIRECTION_TOP_TO_BOTTOM ==> t.fromYDelta == -h && t.toYDelta == (H + h) * 1.25)
      && (c.direction == DIRECTION_BOTTOM_TO_TOP ==> t.fromYDelta == H + h && t.toYDelta == -h * 1.25)
  {
  }

  /** The element enters just outside one edge of the container and leaves
      past the opposite one: top to bottom it starts with its lower edge at
      the top of the container and ends below the bottom, bottom to top the
      reverse. */
  lemma TranslateCrossesContainer(c: Config, measuredHeight: int)
    requires measuredHeight >= 0 && c.drawableConfig.drawableHeight >= 0
    requires DirectionFromCode(c.direction).Ok?
    ensures var t := TranslateAnimation(c, measuredHeight).value;
      var h := c.drawableConfig.drawableHeight as real;
      var H := measuredHeight as real;
      && (c.direction == DIRECTION_TOP_TO_BOTTOM ==> t.fromYDelta + h <= 0.0 && H <= t.toYDelta)
      && (c.direction == DIRECTION_BOTTOM_TO_TOP ==> H <= t.fromYDelta && t.toYDelta + h <= 0.0)
  {
    TranslateEndpoints(c, measuredHeight);
  }

  /** `getAlphaAnimation`. */
  function AlphaAnimation(a: AlphaConfig): (r: Animation)
    ensures r.Fade? && r.fromAlpha == a.from && r.toAlpha == a.to
    ensures r.startOffset == a.delay && r.duration == a.duration
  {
    Fade(a.from, a.to, a.delay, a.duration)
  }

  /** `duration / animations`, the length of one rotation segment. */
  function SegmentDuration(duration: int): int {
    Quot(duration, SEGMENTS)
  }

  /** The wind tilt after the first `n` segments: the sum of their steps. */
  function Tilt(steps: seq<int>, n: nat): int
    requires n <= |steps|
  {
    if n == 0 then 0 else Tilt(steps, n - 1) + steps[n - 1]
  }

  /** The four wind segments: segment `i` turns from the tilt after `i` steps
      to the tilt after `i + 1`. */
  function WindChain(duration: int, steps: seq<int>): seq<Rotation>
    requires |steps| == SEGMENTS
  {
    seq(SEGMENTS, i requires 0 <= i < SEGMENTS =>
      Rotation(Tilt(steps, i), Tilt(steps, i + 1), SegmentDuration(duration), SegmentDuration(duration) * i))
  }

  /** `getSimulateWindAnimation`: each segment's end angle is the previous
      one plus a fresh step. */
  method SimulateWindAnimation(duration: int, steps: seq<int>) returns (a: Animation)
    requires |steps| == SEGMENTS
    ensures a == Rotations(Wind, WindChain(duration, steps))
  {
    var segmentDuration := Quot(duration, SEGMENTS);
    var segments: seq<Rotation> := [];
    var start, end := 0, 0;
    for i := 0 to SEGMENTS
      invariant segments == WindChain(duration, steps)[..i]
      invariant start == end == Tilt(steps, i)
    {
      end := end + steps[i];
      segments := segments + [Rotation(start, end, segmentDuration, segmentDuration * i)];
      start := end;
    }
    a := Rotations(Wind, segments);
  }

  lemma {:induction false} TiltBounds(steps: seq<int>, n: nat)
    requires n <= |steps|
    requires forall i :: 0 <= i < |steps| ==> 2 <= steps[i] <= 4
    ensures 2 * n <= Tilt(steps, n) <= 4 * n
  {
    if n > 0 {
      TiltBounds(steps, n - 1);
    }
  }

  /** Both rotation effects: four segments of `duration / 4`, segment `i`
      starting at `i` times that, the first starting at angle 0 and every
      other starting at the angle where the previous one ended. */
  predicate ChainedSegments(duration: int, r: seq<Rotation>) {
    && |r| == SEGMENTS
    && r[0].fromDegrees == 0
    && (forall i :: 0 < i < |r| ==> r[i].fromDegrees == r[i - 1].toDegrees)
    && (forall i :: 0 <= i < |r| ==>
          r[i].duration == SegmentDuration(duration) && r[i].startOffset == SegmentDuration(duration) * i)
  }

  /** The wind tilts monotonically: each segment adds 2 to 4 degrees, so the
      final tilt lies between 8 and 16 degrees. */
  lemma WindChainProperties(duration: int, steps: seq<int>)
    requires |steps| == SEGMENTS
    requires forall i :: 0 <= i < |steps| ==> 2 <= steps[i] <= 4
    ensures var r := WindChain(duration, steps);
      && ChainedSegments(duration, r)
      && (forall i :: 0 <= i < |r| ==> r[i].fromDegrees + 2 <= r[i].toDegrees <= r[i].fromDegrees + 4)
      && (forall i :: 0 <= i < |r| ==> 2 * (i + 1) <= r[i].toDegrees <= 4 * (i + 1))
      && 8 <= r[SEGMENTS - 1].toDegrees <= 16
  {
    var r := WindChain(duration, steps);
    forall i | 0 <= i < |r|
      ensures 2 * (i + 1) <= r[i].toDegrees <= 4 * (i + 1)
    {
      TiltBounds(steps, i + 1);
    }
  }

  /** The wiggle angle segment `i` ends at: a fresh angle in even segments,
      the negation of the previous end in odd ones. */
  function WiggleEnd(angles: seq<int>, i: nat): int
    requires |angles| == 2 && i < SEGMENTS
  {
    if i % 2 == 0 then angles[i / 2] else -angles[i / 2]
  }

  function WiggleChain(duration: int, angles: seq<int>): seq<Rotation>
    requires |angles| == 2
  {
    seq(SEGMENTS, i requires 0 <= i < SEGMENTS =>
      Rotation(if i == 0 then 0 else WiggleEnd(angles, i - 1), WiggleEnd(angles, i),
               SegmentDuration(duration), SegmentDuration(duration) * i))
  }

  /** `getSimulateWiggleAnimation`. */
  method SimulateWiggleAnimation(duration: int, angles: seq<int>) returns (a: Animation)
    requires |angles| == 2
    ensures a == Rotations(Wiggle, WiggleChain(duration, angles))
  {
    var segmentDuration := Quot(duration, SEGMENTS);
    var segments: seq<Rotation> := [];
    var start, end := 0, 0;
    for i := 0 to SEGMENTS
      invariant segments == WiggleChain(duration, angles)[..i]
      invariant start == end
      invariant 0 < i ==> end == WiggleEnd(angles, i - 1)
      invariant i == 0 ==> end == 0
    {
      end := if i % 2 == 0 then angles[i / 2] else -end;
      segments := segments + [Rotation(start, end, segmentDuration, segmentDuration * i)];
      start := end;
    }
    a := Rotations(Wiggle, segments);
  }

  /** The wiggle oscillates: even segments end at a fresh angle of 2 to 5
      degrees, odd segments at the negation of the previous end, so every
      end is 2 to 5 degrees away from 0 and the last one is at most -2. */
  lemma WiggleChainProperties(duration: int, angles: seq<int>)
    requires |angles| == 2
    requires forall i :: 0 <= i < |angles| ==> 2 <= angles[i] <= 5
    ensures var r := WiggleChain(duration, angles);
      && ChainedSegments(duration, r)
      && (forall i :: 0 <= i < |r| && i % 2 == 0 ==> 2 <= r[i].toDegrees <= 5)
      && (forall i :: 0 <= i < |r| && i % 2 == 1 ==> r[i].toDegrees == -r[i - 1].toDegrees)
      && (forall i :: 0 <= i < |r| ==> 2 <= r[i].toDegrees <= 5 || -5 <= r[i].toDegrees <= -2)
      && r[SEGMENTS - 1].toDegrees <= -2
  {
  }

  /** Rotation segments never outlast the translate, which therefore fixes
      how long an element moves. */
  lemma {:induction false} SegmentsEndWithinTranslate(duration: int, r: seq<Rotation>)
    requires duration >= 0 && ChainedSegments(duration, r)
    ensures forall i :: 0 <= i < |r| ==>
      0 <= r[i].startOffset && r[i].startOffset + r[i].duration <= TranslateDuration(duration)
  {
    var q := SegmentDuration(duration);
    assert 0 <= q * 4 <= duration;
    forall i | 0 <= i < |r|
      ensures 0 <= r[i].startOffset && r[i].startOffset + r[i].duration <= TranslateDuration(duration)
    {
      assert i == 0 || i == 1 || i == 2 || i == 3;
      assert 0 <= q * i && q * i + q <= q * 4;
    }
  }

  /** The animation set of `initAnimation`: translate first, then alpha, wind
      and wiggle when enabled, in that order, all under the configured
      interpolator. */
  function AnimationSetFor(c: Config, measuredHeight: int, p: RandomPicks): (r: Result<AnimationSet, Failure>)
    requires |p.windSteps| == SEGMENTS && |p.wiggleAngles| == 2
    ensures r.Err? <==> DirectionFromCode(c.direction).Err?
    ensures r.Err? ==> r.error == AnimationViewException("Invalid direction")
    ensures r.Ok? ==> r.value.interpolator == c.interpolator
  {
    match TranslateAnimation(c, measuredHeight)
    case Err(e) => Err(e)
    case Ok(translate) =>
      Ok(AnimationSet(c.interpolator,
        [translate]
        + (if c.alphaConfig.alpha then [AlphaAnimation(c.alphaConfig)] else [])
        + (if c.simulateWind then [Rotations(Wind, WindChain(c.duration, p.windSteps))] else [])
        + (if c.simulateWiggle then [Rotations(Wiggle, WiggleChain(c.duration, p.wiggleAngles))] else [])))
  }

  /** Position of each kind of animation in the fixed order of the set. */
  function Rank(a: Animation): nat {
    match a
    case Translate(_, _, _) => 0
    case Fade(_, _, _, _) => 1
    case Rotations(Wind, _) => 2
    case Rotations(Wiggle, _) => 3
  }

  /** Whether the configuration asks for the animation kind of rank `k`. */
  predicate Enabled(c: Config, k: nat) {
    k == 0 || (k == 1 && c.alphaConfig.alpha) || (k == 2 && c.simulateWind) || (k == 3 && c.simulateWiggle)
  }

  /** The set holds each enabled kind exactly once, in the fixed order, with
      the translate first, and each member is built from the configuration. */
  lemma CompositionOrder(c: Config, measuredHeight: int, p: RandomPicks)
    requires |p.windSteps| == SEGMENTS && |p.wiggleAngles| == 2
    requires AnimationSetFor(c, measuredHeight, p).Ok?
    ensures var s := AnimationSetFor(c, measuredHeight, p).value.animations;
      && |s| >= 1 && s[0] == TranslateAnimation(c, measuredHeight).value
      && (forall i, j :: 0 <= i < j < |s| ==> Rank(s[i]) < Rank(s[j]))
      && (forall k: nat :: k < 4 ==> (Enabled(c, k) <==> exists i :: 0 <= i < |s| && Rank(s[i]) == k))
      && (forall i :: 0 <= i < |s| && s[i].Fade? ==>
            s[i] == Fade(c.alphaConfig.from, c.alphaConfig.to, c.alphaConfig.delay, c.alphaConfig.duration))
      && (forall i :: 0 <= i < |s| && s[i].Rotations? && s[i].effect == Wind ==>
            s[i].segments == WindChain(c.duration, p.windSteps))
      && (forall i :: 0 <= i < |s| && s[i].Rotations? && s[i].effect == Wiggle ==>
            s[i].segments == WiggleChain(c.duration, p.wiggleAngles))
  {
    var s := AnimationSetFor(c, measuredHeight, p).value.animations;
    var fade := if c.alphaConfig.alpha then [AlphaAnimation(c.alphaConfig)] else [];
    var wind := if c.simulateWind then [Rotations(Wind, WindChain(c.duration, p.windSteps))] else [];
    var wiggle := if c.simulateWiggle then [Rotations(Wiggle, WiggleChain(c.duration, p.wiggleAngles))] else [];
    assert s == [s[0]] + fade + wind + wiggle;
    forall k: nat | k < 4
      ensures Enabled(c, k) <==> exists i :: 0 <= i < |s| && Rank(s[i]) == k
    {
      if Enabled(c, k) {
        if k == 0 {
          assert Rank(s[0]) == 0;
        } else if k == 1 {
          assert Rank(s[1]) == 1;
        } else if k == 2 {
          assert Rank(s[1 + |fade|]) == 2;
        } else {
          assert Rank(s[1 + |fade| + |wind|]) == 3;
        }
      }
    }
  }

  /** What one fired spawn does before re-arming. */
  datatype SpawnPlan =
      /** no drawable, or the container is not measured yet: nothing is added */
    | Skip
      /** the margin range is empty: `random()` throws before the element is added */
    | FailBeforeAdd(error: Failure)
      /** the element was added, then the direction code was rejected */
    | FailAfterAdd(layout: ElementLayout, error: Failure)
    | Spawn(layout: ElementLayout, animation: AnimationSet)

  predicate HasDrawable(c: Config) {
    c.drawableConfig.drawable.Some?
  }

  /** `initAnimation` as a value. */
  function PlanSpawn(c: Config, measuredWidth: int, measuredHeight: int, p: RandomPicks): (r: SpawnPlan)
    requires PicksInRange(c, measuredWidth, p)
    ensures r.Skip? <==> !HasDrawable(c) || measuredWidth == 0 || measuredHeight == 0
    ensures r.FailBeforeAdd? <==> !r.Skip? && ElementLayoutFor(c, measuredWidth, p).Err?
    ensures r.FailBeforeAdd? ==> r.error == ElementLayoutFor(c, measuredWidth, p).error
    ensures r.FailAfterAdd? <==>
      !r.Skip? && ElementLayoutFor(c, measuredWidth, p).Ok? && DirectionFromCode(c.direction).Err?
    ensures r.FailAfterAdd? ==> r.error == AnimationViewException("Invalid direction")
    ensures (r.Spawn? || r.FailAfterAdd?) ==> r.layout == ElementLayoutFor(c, measuredWidth, p).value
    ensures (r.Spawn? || r.FailAfterAdd?) ==> r.layout.image == c.drawableConfig.drawable
    ensures r.Spawn? ==> r.animation == AnimationSetFor(c, measuredHeight, p).value
    ensures r.Spawn? ==> r.animation.animations != [] && r.animation.animations[0].Translate?
  {
    if !HasDrawable(c) || measuredWidth == 0 || measuredHeight == 0 then Skip
    else match ElementLayoutFor(c, measuredWidth, p)
      case Err(e) => FailBeforeAdd(e)
      case Ok(layout) =>
        match AnimationSetFor(c, measuredHeight, p)
        case Err(e) => FailAfterAdd(layout, e)
        case Ok(animation) => Spawn(layout, animation)
  }

  /** Without a drawable nothing is ever spawned: `start(drawableConfig)`
      with a null drawable turns spawning off, and one with a drawable turns
      it on again once the container is measured. */
  lemma SpawnNeedsDrawable(c: Config, d: DrawableConfig, measuredWidth: int, measuredHeight: int, p: RandomPicks)
    requires PicksInRange(WithDrawable(c, d), measuredWidth, p)
    ensures HasDrawable(WithDrawable(c, d)) <==> d.drawable.Some?
    ensures measuredWidth != 0 && measuredHeight != 0 ==>
      (PlanSpawn(WithDrawable(c, d), measuredWidth, measuredHeight, p).Skip? <==> d.drawable.None?)
  {
  }
}
