/** The view as a state machine: its configuration, the container's children
    and the main thread's task queue, changed by `start`, `stop`, the posted
    tasks when they run, and the end listener of each element. */
module Spawner {
  import opened Base
  import opened Configuration
  import opened Composer
  import opened TaskQueue

  datatype Visibility = Visible | Gone

  /** A child `ImageView` of the container. `id` models
      `ViewCompat.generateViewId()`. */
  datatype Child = Child(id: nat, layout: ElementLayout, visibility: Visibility, animation: Option<AnimationSet>)

  predicate DistinctIds(cs: seq<Child>) {
    forall i, j :: 0 <= i < j < |cs| ==> cs[i].id != cs[j].id
  }

  /** `removeView(v)`: the child with that id leaves and every other child
      stays (in order, by `RemoveViewIsFilter`); removing a view that is not a
      child changes nothing. */
  function RemoveView(cs: seq<Child>, id: nat): (r: seq<Child>)
    ensures forall c :: c in r <==> c in cs && c.id != id
    ensures forall i :: 0 <= i < |r| ==> r[i].id != id
    ensures (forall i :: 0 <= i < |cs| ==> cs[i].id != id) ==> r == cs
    ensures DistinctIds(cs) ==> DistinctIds(r)
  {
    if cs == [] then []
    else if cs[0].id == id then RemoveView(cs[1..], id)
    else [cs[0]] + RemoveView(cs[1..], id)
  }

  /** `removeView` is a filter over the children: every other child stays,
      in its place relative to the others. */
  lemma {:induction false} RemoveViewIsFilter(a: seq<Child>, b: seq<Child>, c: Child, id: nat)
    ensures RemoveView(a + b, id) == RemoveView(a, id) + RemoveView(b, id)
    ensures RemoveView([c], id) == if c.id == id then [] else [c]
  {
    assert [c][1..] == [];
    if a == [] {
      assert a + b == b;
    } else {
      assert (a + b)[0] == a[0] && (a + b)[1..] == a[1..] + b;
      RemoveViewIsFilter(a[1..], b, c, id);
    }
  }

  /** The end listener's work on its own view: `clearAnimation()` and
      `visibility = View.GONE`. */
  function Hide(cs: seq<Child>, id: nat): seq<Child> {
    seq(|cs|, i requires 0 <= i < |cs| =>
      if cs[i].id == id then cs[i].(visibility := Gone, animation := None) else cs[i])
  }

  /** The children a fired spawn adds. */
  function AddedChildren(plan: SpawnPlan, id: nat): seq<Child> {
    match plan
    case Skip => []
    case FailBeforeAdd(_) => []
    case FailAfterAdd(layout, _) => [Child(id, layout, Visible, None)]
    case Spawn(layout, animation) => [Child(id, layout, Visible, Some(animation))]
  }

  /** The exception a fired spawn lets escape, if any. */
  function PlanFailure(plan: SpawnPlan): Option<Failure> {
    match plan
    case Skip => None
    case FailBeforeAdd(e) => Some(e)
    case FailAfterAdd(_, e) => Some(e)
    case Spawn(_, _) => None
  }

  /** Whether the spawn reaches its `start()` and arms a successor: an
      exception thrown by `initAnimation` skips it. */
  predicate Rearms(plan: SpawnPlan) {
    plan.Skip? || plan.Spawn?
  }

  /** Index of the first stop task in `q`, if there is one. */
  function FirstStop(q: seq<Task>): (s: nat)
    ensures s <= |q|
    ensures s < |q| ==> q[s].kind == StopTask
    ensures forall i :: 0 <= i < s ==> q[i].kind != StopTask
  {
    if q == [] || q[0].kind == StopTask then 0 else 1 + FirstStop(q[1..])
  }

  function CountStops(q: seq<Task>): nat {
    if q == [] then 0 else (if q[0].kind == StopTask then 1 else 0) + CountStops(q[1..])
  }

  lemma {:induction false} CountStopsAppend(a: seq<Task>, b: seq<Task>)
    ensures CountStops(a + b) == CountStops(a) + CountStops(b)
  {
    if a == [] {
      assert a + b == b;
    } else {
      assert (a + b)[1..] == a[1..] + b;
      CountStopsAppend(a[1..], b);
    }
  }

  lemma PostCountsStops(q: seq<Task>, t: Task)
    ensures CountStops(Post(q, t)) == CountStops(q) + (if t.kind == StopTask then 1 else 0)
  {
    var k := InsertionPoint(q, t.due);
    assert q == q[..k] + q[k..];
    CountStopsAppend(q[..k] + [t], q[k..]);
    CountStopsAppend(q[..k], [t]);
    CountStopsAppend(q[..k], q[k..]);
  }

  lemma {:induction false} RemoveCallbacksCountsStops(q: seq<Task>)
    ensures CountStops(RemoveCallbacks(q)) == CountStops(q)
  {
    if q != [] {
      RemoveCallbacksCountsStops(q[1..]);
      if q[0].kind != SpawnTask {
        assert ([q[0]] + RemoveCallbacks(q[1..]))[1..] == RemoveCallbacks(q[1..]);
      }
    }
  }

  predicate ClearPending(q: seq<Task>) {
    exists i :: 0 <= i < |q| && q[i].kind == ClearTask
  }

  /** The queue the stop task leaves is still a well-formed queue at `time`,
      holds no spawn, and keeps every other task. */
  lemma StopTaskQueue(q: seq<Task>, time: int)
    requires Sorted(q) && NotBefore(q, time)
    ensures var r := Post(RemoveCallbacks(q), Task(ClearTask, time));
      && Sorted(r) && NotBefore(r, time) && CountSpawns(r) == 0
      && forall t :: t in q && t.kind != SpawnTask ==> t in r
  {
    var kept := RemoveCallbacks(q);
    var clear := Task(ClearTask, time);
    RemoveCallbacksLeavesNoSpawn(q);
    PostCountsSpawns(kept, clear);
    RemoveCallbacksNotBefore(q, time);
    RemoveCallbacksSorted(q);
    PostNotBefore(kept, clear, time);
    PostKeeps(kept, clear);
  }

  /** What the stop task leaves behind it: no spawn, the same stop tasks
      as before it ran, and a clear task. */
  lemma StopTaskRan(q: seq<Task>, time: int)
    ensures var r := Post(RemoveCallbacks(q), Task(ClearTask, time));
      CountSpawns(r) == 0 && CountStops(r) == CountStops(q) && ClearPending(r)
  {
    var kept := RemoveCallbacks(q);
    var r := Post(kept, Task(ClearTask, time));
    RemoveCallbacksLeavesNoSpawn(q);
    PostCountsSpawns(kept, Task(ClearTask, time));
    RemoveCallbacksCountsStops(q);
    PostCountsStops(kept, Task(ClearTask, time));
    assert r[InsertionPoint(kept, time)].kind == ClearTask;
  }

  /** Every task up to and including the first stop task is due at `time`:
      the shape of the queue right after `stop()` at `time`. */
  predicate StopAhead(q: seq<Task>, time: int) {
    FirstStop(q) < |q| && forall i :: 0 <= i <= FirstStop(q) ==> q[i].due == time
  }

  lemma StopPostedAhead(q: seq<Task>, time: int)
    requires NotBefore(q, time)
    ensures StopAhead(Post(q, Task(StopTask, time)), time)
  {
    var r := Post(q, Task(StopTask, time));
    var k := InsertionPoint(q, time);
    assert r[k].kind == StopTask;
    assert FirstStop(r) <= k;
  }

  /** No spawn is queued ahead of the first stop task. */
  predicate NoSpawnAhead(q: seq<Task>) {
    forall i :: 0 <= i < FirstStop(q) ==> q[i].kind != SpawnTask
  }

  /** No spawn in `q` is due by `time`. */
  predicate NoSpawnDue(q: seq<Task>, time: int) {
    forall i :: 0 <= i < |q| && q[i].due <= time ==> q[i].kind != SpawnTask
  }

  /** A stop posted when no spawn is due yet has no spawn ahead of it. */
  lemma StopPostedNoSpawnAhead(q: seq<Task>, time: int)
    requires NotBefore(q, time) && NoSpawnDue(q, time)
    ensures NoSpawnAhead(Post(q, Task(StopTask, time)))
  {
    var r := Post(q, Task(StopTask, time));
    var k := InsertionPoint(q, time);
    assert r[k].kind == StopTask;
    assert FirstStop(r) <= k;
    forall i | 0 <= i < FirstStop(r)
      ensures r[i].kind != SpawnTask
    {
      assert r[i] == q[i] && q[i].due <= time;
    }
  }

  /** Running the head task ahead of the stop keeps the spawns out of the
      way, and that head task is not a spawn. */
  lemma PopNoSpawnAhead(q: seq<Task>, time: int)
    requires StopAhead(q, time) && q[0].kind != StopTask && NoSpawnAhead(q)
    ensures q[0].kind != SpawnTask && NoSpawnAhead(q[1..])
  {
    PopBeforeStop(q, time);
    forall i | 0 <= i < FirstStop(q[1..])
      ensures q[1..][i].kind != SpawnTask
    {
      assert q[1..][i] == q[i + 1];
    }
  }

  /** A task due no earlier than `time` goes behind the first stop task. */
  lemma PostBehindStop(q: seq<Task>, t: Task, time: int)
    requires StopAhead(q, time) && time <= t.due
    ensures StopAhead(Post(q, t), time) && FirstStop(Post(q, t)) == FirstStop(q)
  {
    var r := Post(q, t);
    var s := FirstStop(q);
    var k := InsertionPoint(q, t.due);
    assert s < k;
    assert forall i :: 0 <= i <= s ==> r[i] == q[i];
    assert r[s].kind == StopTask;
    assert FirstStop(r) == s;
  }

  /** Running a task other than a stop task moves the first stop one step ahead. */
  lemma PopBeforeStop(q: seq<Task>, time: int)
    requires StopAhead(q, time) && q[0].kind != StopTask
    ensures StopAhead(q[1..], time) && FirstStop(q[1..]) == FirstStop(q) - 1
  {
  }

  lemma PopClear(q: seq<Task>)
    requires q != [] && q[0].kind != ClearTask && ClearPending(q)
    ensures ClearPending(q[1..])
  {
    var i :| 0 <= i < |q| && q[i].kind == ClearTask;
    assert q[1..][i - 1] == q[i];
  }

  class AnimationView {
    var config: Config
    var measuredWidth: nat
    var measuredHeight: nat
    /** the main thread's clock */
    var now: int
    /** the main thread's pending tasks, in the order they will run */
    var queue: seq<Task>
    /** the container's children, in order */
    var children: seq<Child>
    /** the next id `generateViewId()` hands out */
    var nextViewId: nat

    ghost predicate Valid()
      reads this
    {
      && Sorted(queue)
      && NotBefore(queue, now)
      && DistinctIds(children)
      && (forall i :: 0 <= i < |children| ==> children[i].id < nextViewId)
    }

    /** A new view: `AnimationView(context)` with `Config()`, or the
        attribute constructors with the result of `FromAttributes`. */
    constructor (c: Config)
      ensures Valid()
      ensures config == c && queue == [] && children == []
      ensures measuredWidth == 0 && measuredHeight == 0
    {
      config := c;
      measuredWidth, measuredHeight := 0, 0;
      now := 0;
      queue := [];
      children := [];
      nextViewId := 0;
    }

    /** Time passes on the main thread without a task running: the clock
        moves forward, but not past the next pending task. */
    method Advance(t: int)
      requires Valid() && now <= t
      requires queue != [] ==> t <= queue[0].due
      modifies this`now
      ensures Valid() && now == t
    {
      forall i | 0 <= i < |queue|
        ensures t <= queue[i].due
      {
        assert queue[0].due <= queue[i].due;
      }
      now := t;
    }

    /** The host's layout pass gives the container its measured size. */
    method Measure(width: nat, height: nat)
      modifies this`measuredWidth, this`measuredHeight
      ensures measuredWidth == width && measuredHeight == height
    {
      measuredWidth, measuredHeight := width, height;
    }

    /** `start()`: post one spawn `spawnDelay` from now. Nothing checks for
        spawns already pending, so every call adds one more. */
    method Start()
      requires Valid()
      modifies this`queue
      ensures Valid()
      ensures queue == Post(old(queue), DelayedSpawn(now, config.spawnDelay))
      ensures CountSpawns(queue) == CountSpawns(old(queue)) + 1
    {
      var spawn := DelayedSpawn(now, config.spawnDelay);
      PostCountsSpawns(queue, spawn);
      PostNotBefore(queue, spawn, now);
      queue := Post(queue, spawn);
    }

    /** `start(config)`: replace the whole configuration, then `start()`. */
    method StartWith(c: Config)
      requires Valid()
      modifies this`config, this`queue
      ensures Valid()
      ensures config == c && children == old(children)
      ensures queue == Post(old(queue), DelayedSpawn(now, c.spawnDelay))
      ensures CountSpawns(queue) == CountSpawns(old(queue)) + 1
    {
      config := c;
      Start();
    }

    /** `start(drawableConfig)`: replace only the drawable part of the
        configuration, then `start()`. Children already in flight keep theirs. */
    method StartWithDrawable(d: DrawableConfig)
      requires Valid()
      modifies this`config, this`queue
      ensures Valid()
      ensures config == WithDrawable(old(config), d) && children == old(children)
      ensures queue == Post(old(queue), DelayedSpawn(now, config.spawnDelay))
      ensures CountSpawns(queue) == CountSpawns(old(queue)) + 1
    {
      config := WithDrawable(config, d);
      Start();
    }

    /** `stop()`: post the stop task to run as soon as possible. */
    method Stop()
      requires Valid()
      modifies this`queue
      ensures Valid()
      ensures queue == Post(old(queue), Task(StopTask, now))
      ensures CountSpawns(queue) == CountSpawns(old(queue))
      ensures StopAhead(queue, now)
      ensures NoSpawnDue(old(queue), now) ==> NoSpawnAhead(queue)
    {
      PostCountsSpawns(queue, Task(StopTask, now));
      PostNotBefore(queue, Task(StopTask, now), now);
      StopPostedAhead(queue, now);
      if NoSpawnDue(queue, now) {
        StopPostedNoSpawnAhead(queue, now);
      }
      queue := Post(queue, Task(StopTask, now));
    }

    /** `_stopAnimations`: remove every pending spawn, then post the task
        that clears the children. */
    method RunStopTask()
      requires Valid()
      modifies this`queue
      ensures Valid()
      ensures queue == Post(RemoveCallbacks(old(queue)), Task(ClearTask, now))
      ensures CountSpawns(queue) == 0
      ensures forall t :: t in old(queue) && t.kind != SpawnTask ==> t in queue
    {
      StopTaskQueue(queue, now);
      queue := Post(RemoveCallbacks(queue), Task(ClearTask, now));
    }

    /** The task posted by `_stopAnimations`: `removeAllViews()`. */
    method RunClearTask()
      requires Valid()
      modifies this`children
      ensures Valid()
      ensures children == []
    {
      children := [];
    }

    /** The task an end listener posts: `removeView(v)`. */
    method RunRemoveView(id: nat)
      requires Valid()
      modifies this`children
      ensures Valid()
      ensures children == RemoveView(old(children), id)
    {
      children := RemoveView(children, id);
    }

    /** The end listener of the element with id `id`: it hides that view and
        posts its removal; no other child changes. */
    method AnimationEnded(id: nat)
      requires Valid()
      modifies this`children, this`queue
      ensures Valid()
      ensures |children| == |old(children)|
      ensures forall i :: 0 <= i < |children| && old(children)[i].id != id ==> children[i] == old(children)[i]
      ensures forall i :: 0 <= i < |children| && old(children)[i].id == id ==>
        children[i] == old(children)[i].(visibility := Gone, animation := None)
      ensures queue == Post(old(queue), Task(RemoveViewTask(id), now))
    {
      children := Hide(children, id);
      PostNotBefore(queue, Task(RemoveViewTask(id), now), now);
      queue := Post(queue, Task(RemoveViewTask(id), now));
    }

    /** `_animationRunnable`: `initAnimation()`, then `start()`. An exception
        from `initAnimation` escapes before `start()`. */
    method FireSpawn(p: RandomPicks) returns (failure: Option<Failure>)
      requires Valid() && PicksInRange(config, measuredWidth, p)
      modifies this`children, this`nextViewId, this`queue
      ensures Valid()
      ensures var plan := PlanSpawn(config, measuredWidth, measuredHeight, p);
        && children == old(children) + AddedChildren(plan, old(nextViewId))
        && failure == PlanFailure(plan)
        && queue == if Rearms(plan) then Post(old(queue), DelayedSpawn(now, config.spawnDelay))
                    else old(queue)
    {
      failure := InitAnimation(p);
      if failure == None {
        Start();
      }
    }

    /** `initAnimation`: add one element and attach its animation set, unless
        there is no drawable or the container is not measured yet. */
    method InitAnimation(p: RandomPicks) returns (failure: Option<Failure>)
      requires Valid() && PicksInRange(config, measuredWidth, p)
      modifies this`children, this`nextViewId
      ensures Valid()
      ensures var plan := PlanSpawn(config, measuredWidth, measuredHeight, p);
        && children == old(children) + AddedChildren(plan, old(nextViewId))
        && failure == PlanFailure(plan)
    {
      ghost var plan := PlanSpawn(config, measuredWidth, measuredHeight, p);
      if !HasDrawable(config) || measuredWidth == 0 || measuredHeight == 0 {
        assert plan == Skip;
        assert children == old(children) + AddedChildren(plan, old(nextViewId));
        return None;
      }
      var layout := ElementLayoutFor(config, measuredWidth, p);
      if layout.Err? {
        assert plan == FailBeforeAdd(layout.error);
        return Some(layout.error);
      }
      var id := AddView(layout.value);
      var translate := TranslateAnimation(config, measuredHeight);
      if translate.Err? {
        assert plan == FailAfterAdd(layout.value, translate.error);
        return Some(translate.error);
      }
      var animations := [translate.value];
      if config.alphaConfig.alpha {
        animations := animations + [AlphaAnimation(config.alphaConfig)];
      }
      if config.simulateWind {
        var wind := SimulateWindAnimation(config.duration, p.windSteps);
        animations := animations + [wind];
      }
      if config.simulateWiggle {
        var wiggle := SimulateWiggleAnimation(config.duration, p.wiggleAngles);
        animations := animations + [wiggle];
      }
      var animationSet := AnimationSet(config.interpolator, animations);
      assert animations == AnimationSetFor(config, measuredHeight, p).value.animations;
      assert plan == Spawn(layout.value, animationSet);
      ghost var added := children;
      SetLastAnimation(animationSet);
      assert children == old(children) + [Child(id, layout.value, Visible, Some(animationSet))] by {
        assert added == old(children) + [Child(id, layout.value, Visible, None)];
      }
      failure := None;
    }

    /** `addView(imgV, layoutParams)` for a new view with a fresh id. */
    method AddView(layout: ElementLayout) returns (id: nat)
      requires Valid()
      modifies this`children, this`nextViewId
      ensures Valid()
      ensures id == old(nextViewId)
      ensures children == old(children) + [Child(id, layout, Visible, None)]
    {
      id := nextViewId;
      nextViewId := nextViewId + 1;
      children := children + [Child(id, layout, Visible, None)];
    }

    /** `imgV.animation = animationSet` on the view just added. */
    method SetLastAnimation(animation: AnimationSet)
      requires Valid() && children != []
      modifies this`children
      ensures Valid()
      ensures children == old(children)[|old(children)| - 1 := old(children)[|old(children)| - 1].(animation := Some(animation))]
    {
      var last := |children| - 1;
      children := children[last := children[last].(animation := Some(animation))];
    }

    /** `stop()`, then the main thread runs every task queued, one after the
        other, while nothing else happens. Tasks due before the stop task still
        run (a spawn among them re-arms behind it). Unless one of those spawns
        throws, the view ends with no child and nothing pending. */
    method StopAndDrain(p: RandomPicks) returns (failure: Option<Failure>)
      requires Valid() && PicksInRange(config, measuredWidth, p)
      modifies this`now, this`queue, this`children, this`nextViewId
      ensures Valid()
      ensures failure == None ==> queue == [] && children == []
      ensures failure == None || failure == PlanFailure(PlanSpawn(config, measuredWidth, measuredHeight, p))
      ensures NoSpawnDue(old(queue), old(now)) ==> failure == None
    {
      Stop();
      failure := RunUntilStop(p);
      if failure != None {
        return;
      }
      RunStop(p);
      DrainAfterStop(p);
    }

    /** Run the stop task at the head of the queue. */
    method RunStop(p: RandomPicks)
      requires Valid() && PicksInRange(config, measuredWidth, p)
      requires queue != [] && queue[0].kind == StopTask
      modifies this`now, this`queue, this`children, this`nextViewId
      ensures Valid()
      ensures CountSpawns(queue) == 0 && ClearPending(queue)
    {
      var q := queue;
      var ran, f := Step(p);
      StopTaskRan(q[1..], now);
    }

    /** Run the tasks queued ahead of the first stop task, all due now. A
        spawn among them re-arms behind the stop task. */
    method RunUntilStop(p: RandomPicks) returns (failure: Option<Failure>)
      requires Valid() && PicksInRange(config, measuredWidth, p)
      requires StopAhead(queue, now)
      modifies this`now, this`queue, this`children, this`nextViewId
      ensures Valid()
      ensures failure == None ==> StopAhead(queue, now) && queue[0].kind == StopTask
      ensures failure == None || failure == PlanFailure(PlanSpawn(config, measuredWidth, measuredHeight, p))
      ensures NoSpawnAhead(old(queue)) ==> failure == None
    {
      failure := None;
      while queue[0].kind != StopTask
        invariant Valid() && PicksInRange(config, measuredWidth, p)
        invariant StopAhead(queue, now)
        invariant NoSpawnAhead(old(queue)) ==> NoSpawnAhead(queue)
        decreases FirstStop(queue)
      {
        var q := queue;
        var time := now;
        if NoSpawnAhead(q) {
          PopNoSpawnAhead(q, time);
        }
        var ran, f := Step(p);
        if f != None {
          return f;
        }
        PopBeforeStop(q, time);
        if q[0].kind == SpawnTask {
          PostBehindStop(q[1..], DelayedSpawn(now, config.spawnDelay), time);
        }
      }
    }

    /** Run every task left once the stop task has run: none of them is a
        spawn, and the clear task is among them unless no child is left. */
    method DrainAfterStop(p: RandomPicks)
      requires Valid() && PicksInRange(config, measuredWidth, p)
      requires CountSpawns(queue) == 0 && (children == [] || ClearPending(queue))
      modifies this`now, this`queue, this`children, this`nextViewId
      ensures Valid()
      ensures queue == [] && children == []
    {
      while queue != []
        invariant Valid() && PicksInRange(config, measuredWidth, p)
        invariant CountSpawns(queue) == 0 && (children == [] || ClearPending(queue))
        decreases CountStops(queue), |queue|
      {
        var q := queue;
        NoSpawnCounted(q);
        assert q[0].kind != SpawnTask;
        var ran, f := Step(p);
        if q[0].kind == StopTask {
          StopTaskRan(q[1..], now);
        } else if q[0].kind.RemoveViewTask? && children != [] {
          PopClear(q);
        }
      }
    }

    /** The main thread runs the first pending task, once its time has come. */
    method Step(p: RandomPicks) returns (ran: bool, failure: Option<Failure>)
      requires Valid() && PicksInRange(config, measuredWidth, p)
      modifies this`now, this`queue, this`children, this`nextViewId
      ensures Valid()
      ensures ran <==> old(queue) != []
      ensures !ran ==> now == old(now) && queue == old(queue) && children == old(children) && failure == None
      ensures ran ==> now == old(queue)[0].due
      ensures ran && old(queue)[0].kind == SpawnTask ==>
        var plan := PlanSpawn(config, measuredWidth, measuredHeight, p);
        && children == old(children) + AddedChildren(plan, old(nextViewId))
        && failure == PlanFailure(plan)
        && queue == if Rearms(plan) then Post(old(queue)[1..], DelayedSpawn(now, config.spawnDelay))
                    else old(queue)[1..]
      ensures ran && old(queue)[0].kind == StopTask ==>
        && queue == Post(RemoveCallbacks(old(queue)[1..]), Task(ClearTask, now))
        && CountSpawns(queue) == 0 && children == old(children) && failure == None
      ensures ran && old(queue)[0].kind == ClearTask ==>
        children == [] && queue == old(queue)[1..] && failure == None
      ensures ran && old(queue)[0].kind.RemoveViewTask? ==>
        && children == RemoveView(old(children), old(queue)[0].kind.viewId)
        && queue == old(queue)[1..] && failure == None
    {
      failure := None;
      if queue == [] {
        return false, None;
      }
      ran := true;
      var task := queue[0];
      queue := queue[1..];
      now := task.due;
      match task.kind
      case SpawnTask =>
        failure := FireSpawn(p);
      case StopTask =>
        RunStopTask();
      case ClearTask =>
        RunClearTask();
      case RemoveViewTask(id) =>
        RunRemoveView(id);
    }
  }
}
