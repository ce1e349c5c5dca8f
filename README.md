# RainingAnimationView in Dafny

A model of `AnimationView`, an Android `RelativeLayout` that spawns small
image views every `spawnDelay` milliseconds and animates each across the
screen. Each element gets a vertical translate and, if enabled, an alpha
fade, a "wind" rotation, a "wiggle" rotation and a random pseudo-3D size.
The model covers:

- **Configuration** (`configuration.dfy`, module `Configuration`): the
  `Config`, `DrawableConfig` and `AlphaConfig` records and their defaults.
  It also has the drawable-only `copy` done by `start(drawableConfig)`, the
  interpolator and direction codes, and building a configuration from the
  declarative attributes (`init`).
- **Composition** (`composer.dfy`, module `Composer`): the size divisor, the
  layout size and the left margin of a new element. It also builds the
  translate, alpha, wind and wiggle animations and the order in which they
  join the element's `AnimationSet`. Wind and wiggle are `repeat(4)` loops in
  the source, so they are methods with loops here. Each is proved equal to a
  specification function, and the properties are proved about that function.
- **Task queue** (`task_queue.dfy`, module `TaskQueue`): the main thread's
  queue of delayed tasks, as values. Posting orders tasks by due time, first
  in, first out among equal times. `removeCallbacks` on the spawn runnable
  drops every pending spawn.
- **Scheduler** (`spawner.dfy`, module `Spawner`): class `AnimationView`.
  Its fields are the configuration, the measured size, the clock, the task
  queue and the child list. Its methods are `start`, `start(config)`,
  `start(drawableConfig)` and `stop`, plus the posted tasks as they run (the
  spawn runnable, the stop runnable, the clear task, `removeView`) and the end
  listener. `Step` is the main thread running the next due task.
  `StopAndDrain` is a client: it calls `stop()` and runs the queue until it is
  empty.

`base.dfy` (module `Base`) holds `Option`, `Result`, the escaping exceptions
and Kotlin's truncating integer division and `Float.toLong()`.

Random choices are parameters (`RandomPicks`) constrained to their ranges.
Resolving a drawable resource is a function parameter of `FromAttributes`.
The host's layout pass is the `Measure` method, and the end of an element's
animation is the `AnimationEnded` method.

Three behaviours of the code that a caller might not expect, which the model
follows as written:

- An invalid direction code is not rejected when the view is built.
  `init` stores it, and the "Invalid direction" exception comes later, from
  `getTranslateAnimation` during a spawn, after the element was already
  added (`InvalidDirectionAcceptedAtConstruction`, `InitAnimation`).
- `start()` is not idempotent. Every call posts one more spawn, so two calls
  without a `stop()` between them run two spawn streams (`Start`).
- `stop()` does not cancel synchronously. It posts a task that removes the
  pending spawns, and that task posts another task that removes the children.
  A spawn already due before the stop task still runs and re-arms; the
  re-armed spawn lands behind the stop task (`StopAndDrain`).

## Model

| member | source | states |
|---|---|---|
| Base.Quot | rainingAnimationViewTh/src/main/java/th/rainingAnimationView/AnimationView.kt:250 | the quotient times the divisor is within one divisor of the dividend, on the dividend's side of zero (Kotlin truncation, not Euclidean division) |
| Base.Truncate | rainingAnimationViewTh/src/main/java/th/rainingAnimationView/AnimationView.kt:299 | `toLong()` of a value: the whole number within one of it, on zero's side |
| Configuration.WithDrawable | rainingAnimationViewTh/src/main/java/th/rainingAnimationView/AnimationView.kt:209-212 | the copy carries the new drawable config, and every other field equals the old one |
| Configuration.WithDrawableOverrides | rainingAnimationViewTh/src/main/java/th/rainingAnimationView/AnimationView.kt:209-212 | a second drawable replacement wins over the first; replacing with the current drawable config is the identity |
| Configuration.InterpolatorFromCode | rainingAnimationViewTh/src/main/java/th/rainingAnimationView/AnimationView.kt:117-124 | succeeds exactly for codes 0 and 1; any other code fails with "Undefined interpolator" |
| Configuration.InterpolatorCodeRoundTrip | rainingAnimationViewTh/src/main/java/th/rainingAnimationView/AnimationView.kt:55-58 | 0 is Linear and 1 is FastOutSlowIn, one to one: code to interpolator and back is the identity both ways |
| Configuration.DirectionFromCode | rainingAnimationViewTh/src/main/java/th/rainingAnimationView/AnimationView.kt:287-297 | succeeds exactly for codes 0 and 1; any other code fails with "Invalid direction" |
| Configuration.DirectionCodeRoundTrip | rainingAnimationViewTh/src/main/java/th/rainingAnimationView/AnimationView.kt:50-53 | 0 is top-to-bottom and 1 bottom-to-top, one to one in both directions |
| Configuration.FromAttributes | rainingAnimationViewTh/src/main/java/th/rainingAnimationView/AnimationView.kt:104-193 | construction fails exactly when an interpolator code other than 0 or 1 is given; on success the interpolator is the one the code names, the direction is the given code unchecked, every other field is its attribute or that attribute's default, and the drawable is the resolved resource (default icon when absent) |
| Configuration.NoAttributesGiveDefaults | rainingAnimationViewTh/src/main/java/th/rainingAnimationView/AnimationView.kt:35-98 | with no attributes the configuration equals `Config()`: duration 5000, spawn delay 500, all toggles false, 50 by 50, alpha 1 to 0 over 5000 after 0. The differences are an explicit linear interpolator and the default icon |
| Configuration.InvalidDirectionAcceptedAtConstruction | rainingAnimationViewTh/src/main/java/th/rainingAnimationView/AnimationView.kt:126-130 | whenever the interpolator code is valid, an out-of-range direction code is accepted at construction and kept, so it can only fail later |
| Composer.ElementLayoutFor | rainingAnimationViewTh/src/main/java/th/rainingAnimationView/AnimationView.kt:221-228 | fails with an empty-range `random()` exactly when the element is wider than the container; otherwise the element lies horizontally inside the container and shows the configured drawable |
| Composer.ElementSize | rainingAnimationViewTh/src/main/java/th/rainingAnimationView/AnimationView.kt:221-225 | without 3D the layout is the drawable's size with height and width swapped; for non-negative drawable sizes both sides are the drawable's divided by one divisor in 1..5, rounded down |
| Composer.TranslateDuration | rainingAnimationViewTh/src/main/java/th/rainingAnimationView/AnimationView.kt:299 | the translate lasts `duration * 1.25` rounded toward zero; for a non-negative `duration` it is never shorter than `duration` |
| Composer.TranslateAnimation | rainingAnimationViewTh/src/main/java/th/rainingAnimationView/AnimationView.kt:281-301 | fails with "Invalid direction" exactly for codes other than 0 and 1; otherwise a translate lasting the translate duration |
| Composer.TranslateEndpoints | rainingAnimationViewTh/src/main/java/th/rainingAnimationView/AnimationView.kt:282-297 | top to bottom runs from `-h` to `(H+h)*1.25`, bottom to top from `H+h` to `-h*1.25`, for any sizes |
| Composer.TranslateCrossesContainer | rainingAnimationViewTh/src/main/java/th/rainingAnimationView/AnimationView.kt:282-297 | for non-negative sizes the element starts outside the entry edge and ends past the exit edge |
| Composer.SizeDivisor | rainingAnimationViewTh/src/main/java/th/rainingAnimationView/AnimationView.kt:221 | the divisor is 1 without 3D, and otherwise exactly the pick, which lies in 1..5 |
| Composer.AlphaAnimation | rainingAnimationViewTh/src/main/java/th/rainingAnimationView/AnimationView.kt:303-308 | a fade from the alpha config's `from` to its `to`, starting after its delay and lasting its duration |
| Composer.SimulateWindAnimation | rainingAnimationViewTh/src/main/java/th/rainingAnimationView/AnimationView.kt:264-279 | the loop builds exactly the wind chain: segment `i` turns from the sum of the first `i` steps to the sum of the first `i+1` |
| Composer.TiltBounds | rainingAnimationViewTh/src/main/java/th/rainingAnimationView/AnimationView.kt:270-271 | after `n` steps of 2 to 4 degrees the tilt lies between `2n` and `4n` |
| Composer.WindChainProperties | rainingAnimationViewTh/src/main/java/th/rainingAnimationView/AnimationView.kt:264-279 | 4 segments of `duration/4`, offsets `i*(duration/4)`, chained from 0; each segment adds 2 to 4 degrees; the final tilt is in [8, 16] |
| Composer.SimulateWiggleAnimation | rainingAnimationViewTh/src/main/java/th/rainingAnimationView/AnimationView.kt:247-262 | the loop builds exactly the wiggle chain from the two angles drawn in segments 0 and 2 |
| Composer.WiggleChainProperties | rainingAnimationViewTh/src/main/java/th/rainingAnimationView/AnimationView.kt:247-262 | same timing and chaining as wind; even segments end in [2, 5], odd segments at the negation of the previous end; every end is 2 to 5 degrees from 0, and the last is at most -2 |
| Composer.SegmentsEndWithinTranslate | rainingAnimationViewTh/src/main/java/th/rainingAnimationView/AnimationView.kt:250-257 | for a non-negative duration, every rotation segment ends no later than the translate |
| Composer.AnimationSetFor | rainingAnimationViewTh/src/main/java/th/rainingAnimationView/AnimationView.kt:231-236 | fails exactly when the direction code is invalid; the set is driven by the configured interpolator |
| Composer.CompositionOrder | rainingAnimationViewTh/src/main/java/th/rainingAnimationView/AnimationView.kt:231-236 | the translate comes first; then alpha, wind and wiggle, each present exactly when enabled, in that order; the alpha uses the alpha config's delay and duration, and the rotations are the wind and wiggle chains |
| Composer.PlanSpawn | rainingAnimationViewTh/src/main/java/th/rainingAnimationView/AnimationView.kt:214-236 | skips exactly when there is no drawable or a measured side is 0; otherwise fails before adding exactly when the margin range is empty, and adds an element without animation exactly when the direction code is invalid; a spawned element has the layout of `ElementLayoutFor`, the set of `AnimationSetFor` (translate first) and the configured drawable |
| Composer.SpawnNeedsDrawable | rainingAnimationViewTh/src/main/java/th/rainingAnimationView/AnimationView.kt:320 | a configuration has a drawable exactly when its drawable config holds one, and once the container is measured a spawn is skipped exactly when the drawable is null |
| TaskQueue.PostDelay | rainingAnimationViewTh/src/main/java/th/rainingAnimationView/AnimationView.kt:197 | a non-negative delay is kept as is, and a negative one counts as 0 |
| TaskQueue.DelayedSpawn | rainingAnimationViewTh/src/main/java/th/rainingAnimationView/AnimationView.kt:197 | the posted spawn is due `delay` after now, or now when the delay is negative |
| TaskQueue.InsertionPoint | rainingAnimationViewTh/src/main/java/th/rainingAnimationView/AnimationView.kt:197 | a posted task goes after every task due no later than it and before the next task due strictly later |
| TaskQueue.Post | rainingAnimationViewTh/src/main/java/th/rainingAnimationView/AnimationView.kt:197-201 | posting adds exactly the task at its insertion point, keeps the queue in due order, and leaves the tasks ahead of it and behind it in their order |
| TaskQueue.PostCountsSpawns | rainingAnimationViewTh/src/main/java/th/rainingAnimationView/AnimationView.kt:196-198 | posting a spawn adds exactly one pending spawn; posting any other task adds none |
| TaskQueue.RemoveCallbacks | rainingAnimationViewTh/src/main/java/th/rainingAnimationView/AnimationView.kt:67 | no spawn remains; every other task stays; exactly the spawns are dropped |
| TaskQueue.RemoveCallbacksIsFilter | rainingAnimationViewTh/src/main/java/th/rainingAnimationView/AnimationView.kt:67 | the removal works task by task: it distributes over concatenation, drops a lone spawn and keeps any other lone task, so the kept tasks keep their order and number |
| TaskQueue.RemoveCallbacksSorted | rainingAnimationViewTh/src/main/java/th/rainingAnimationView/AnimationView.kt:67 | the tasks that stay keep their order by due time |
| TaskQueue.RemoveCallbacksLeavesNoSpawn | rainingAnimationViewTh/src/main/java/th/rainingAnimationView/AnimationView.kt:66-67 | after the removal no spawn is pending, and a second removal changes nothing |
| Spawner.RemoveView | rainingAnimationViewTh/src/main/java/th/rainingAnimationView/AnimationView.kt:315 | the child with that id is gone and every other child is kept; removing a view that is not a child changes nothing; distinct ids stay distinct |
| Spawner.RemoveViewIsFilter | rainingAnimationViewTh/src/main/java/th/rainingAnimationView/AnimationView.kt:315 | the removal works child by child, so the other children keep their order |
| Spawner.StopTaskQueue | rainingAnimationViewTh/src/main/java/th/rainingAnimationView/AnimationView.kt:66-72 | the queue the stop task leaves stays sorted and not in the past, holds no spawn and keeps every other task |
| Spawner.StopTaskRan | rainingAnimationViewTh/src/main/java/th/rainingAnimationView/AnimationView.kt:66-72 | once the stop task has run, no spawn is pending, the number of stop tasks is what followed it, and a clear task is pending |
| Spawner.AnimationView.constructor | rainingAnimationViewTh/src/main/java/th/rainingAnimationView/AnimationView.kt:21-33 | a new view holds its configuration, no children and no pending task |
| Spawner.AnimationView.Advance | rainingAnimationViewTh/src/main/java/th/rainingAnimationView/AnimationView.kt:61 | the main thread's clock moves forward to any time up to the next pending task, changing nothing else |
| Spawner.AnimationView.Start | rainingAnimationViewTh/src/main/java/th/rainingAnimationView/AnimationView.kt:196-198 | posts one spawn due `spawnDelay` from now, so pending spawns grow by exactly one even when some are already pending |
| Spawner.AnimationView.StartWith | rainingAnimationViewTh/src/main/java/th/rainingAnimationView/AnimationView.kt:204-207 | the whole configuration is replaced, the children are untouched, and exactly one spawn is armed with the new spawn delay |
| Spawner.AnimationView.StartWithDrawable | rainingAnimationViewTh/src/main/java/th/rainingAnimationView/AnimationView.kt:209-212 | only the drawable part of the configuration changes, children in flight keep theirs, and exactly one spawn is armed |
| Spawner.AnimationView.Stop | rainingAnimationViewTh/src/main/java/th/rainingAnimationView/AnimationView.kt:200-202 | posts the stop task for now; nothing is cancelled yet; every task ahead of the stop is due now, and when no spawn was due none is ahead of it |
| Spawner.AnimationView.RunStopTask | rainingAnimationViewTh/src/main/java/th/rainingAnimationView/AnimationView.kt:66-72 | afterwards no spawn is pending, every other task is still queued, and a clear task is posted for now |
| Spawner.AnimationView.RunClearTask | rainingAnimationViewTh/src/main/java/th/rainingAnimationView/AnimationView.kt:68-71 | afterwards the child list is empty |
| Spawner.AnimationView.RunRemoveView | rainingAnimationViewTh/src/main/java/th/rainingAnimationView/AnimationView.kt:315 | the posted removal takes out exactly that element |
| Spawner.AnimationView.AnimationEnded | rainingAnimationViewTh/src/main/java/th/rainingAnimationView/AnimationView.kt:310-318 | the ended element is GONE with its animation cleared, every other child is unchanged, and a removal for exactly that element is posted for now |
| Spawner.AnimationView.InitAnimation | rainingAnimationViewTh/src/main/java/th/rainingAnimationView/AnimationView.kt:214-239 | adds the element `PlanSpawn` describes, built by the wind and wiggle methods: none when degenerate or when the margin range is empty, one without animation when the direction fails, one with its animation set otherwise; reports the exception |
| Spawner.AnimationView.AddView | rainingAnimationViewTh/src/main/java/th/rainingAnimationView/AnimationView.kt:217-230 | appends a visible element under a fresh id, keeping ids distinct |
| Spawner.AnimationView.SetLastAnimation | rainingAnimationViewTh/src/main/java/th/rainingAnimationView/AnimationView.kt:237 | attaches the set to the element just added and changes nothing else |
| Spawner.AnimationView.FireSpawn | rainingAnimationViewTh/src/main/java/th/rainingAnimationView/AnimationView.kt:62-65 | a fired spawn adds what `initAnimation` adds and arms exactly one successor, also when nothing was spawned; when `initAnimation` throws, no successor is armed |
| Spawner.AnimationView.Step | rainingAnimationViewTh/src/main/java/th/rainingAnimationView/AnimationView.kt:61-72 | runs the earliest task: a spawn as in `FireSpawn`; a stop leaves no spawn pending and the children as they were; a clear empties the children; a removal removes one element |
| Spawner.AnimationView.StopAndDrain | rainingAnimationViewTh/src/main/java/th/rainingAnimationView/AnimationView.kt:66-72 | after `stop()` and running every queued task, with no further calls, no task is pending and no child is left; a failure is reported only when a spawn was due before the stop task, and it is that spawn's exception |

## Left out

- Android's `Handler`, `Looper` and `MessageQueue` are modelled only as a due-ordered queue. Posting uses their placement rule and treats a negative delay as zero. Their threading, barriers and the `handler` of a detached view (null) are not modelled.
- `ImageView` creation, clickable and focusable flags, rendering and layout are not modelled. `generateViewId()` is a counter. The drawable set into the view is recorded in its layout.
- Reading the `TypedArray` and `ContextCompat.getDrawable` are not modelled. Attributes arrive decoded, and resolving a resource is a function parameter. The alpha delay's float-to-`Long` conversion is left out: the attribute arrives as a whole number.
- Interpolator curves and opacity are opaque values; alpha `from`/`to` are reals. `* 1.25f` is computed exactly over the reals, so float rounding is not modelled. Rotation angles are whole numbers in the source too, stored in floats.
- Randomness: each `random()` result is a parameter constrained to its range (`RandomPicks`, `PicksInRange`).
- `Long` overflow is not modelled: integers are unbounded. Values read by `init` come from `Int` attributes, but a `Config` passed to `start(config)` can hold any `Long` duration and spawn delay; the model assumes those values and the sums built from them (`now + spawnDelay`, `duration / 4 * i`) stay in range.
- Android's `setDuration` throws on a negative duration. The model does not, and computes with negative durations as the arithmetic says.
- An exception escaping a runnable ends the app on the platform. `FireSpawn` and `Step` return it instead, and `StopAndDrain` stops at it.
- `clearAnimation()` on a running animation may fire the end listener on the platform. That callback chain is not modelled; `AnimationEnded` is called by the environment.
- The `AnimationSet(true)` sharing flag and the interpolators of the nested wind and wiggle sets are host behaviour and are not modelled.
- `MainActivity.kt` (calls `start` in `onResume` and `stop` in `onPause`) and `AnimationEndListener.kt` (no-op start and repeat callbacks) are not part of this model.
- Spawner.AnimationView.StopAndDrain: the final queue and children are claimed only when no spawn threw; a thrown exception ends the run. A spawn can only throw when it was due before the stop task, and the failure reported is its exception.
- Spawner.AnimationView.StopAndDrain: every spawn it runs uses the same `RandomPicks`, while on the platform each spawn draws fresh numbers. The empty end state does not depend on the picks; the failure clause speaks of that one set of picks.
- Spawner.AnimationView.Advance: the clock never passes a pending task, so the host acts only at a time when no task is overdue. On the platform `stop()` can be called while earlier spawns are still waiting to run; they run before the stop task either way, so the outcome is the same.
