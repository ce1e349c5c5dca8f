/** The main thread's queue of delayed tasks, as far as the view uses it:
    posting a task for a due time, and removing every pending spawn
    (`removeCallbacks(_animationRunnable)`). Tasks run in order of due time;
    a task posted for a time already present runs after the ones queued
    before it. */
module TaskQueue {

  datatype TaskKind =
      /** `_animationRunnable`: spawn an element, then re-arm */
    | SpawnTask
      /** `_stopAnimations` */
    | StopTask
      /** the task `_stopAnimations` posts: clear and remove every child */
    | ClearTask
      /** `removeView(v)` posted by an element's end listener */
    | RemoveViewTask(viewId: nat)

  datatype Task = Task(kind: TaskKind, due: int)

  predicate Sorted(q: seq<Task>) {
    forall i, j :: 0 <= i < j < |q| ==> q[i].due <= q[j].due
  }

  /** `postDelayed` treats a negative delay as no delay. */
  function PostDelay(delay: int): (d: nat)
    ensures delay >= 0 ==> d == delay
    ensures delay < 0 ==> d == 0
  {
    if delay < 0 then 0 else delay
  }

  /** The spawn `postDelayed(_animationRunnable, delay)` queues at time `now`. */
  function DelayedSpawn(now: int, delay: int): (t: Task)
    ensures t.kind == SpawnTask && now <= t.due
    ensures delay >= 0 ==> t.due == now + delay
    ensures delay < 0 ==> t.due == now
  {
    Task(SpawnTask, now + PostDelay(delay))
  }

  /** Where a task due at `due` goes: before the first task due strictly later. */
  function InsertionPoint(q: seq<Task>, due: int): (k: nat)
    ensures k <= |q|
    ensures forall i :: 0 <= i < k ==> q[i].due <= due
    ensures k == |q| || due < q[k].due
  {
    if q == [] || due < q[0].due then 0 else 1 + InsertionPoint(q[1..], due)
  }

  /** Post `t`: it is placed after every task due no later than it and before
      every task due strictly later. */
  function Post(q: seq<Task>, t: Task): (r: seq<Task>)
    ensures |r| == |q| + 1
    ensures multiset(r) == multiset(q) + multiset{t}
    ensures Sorted(q) ==> Sorted(r)
    ensures r[InsertionPoint(q, t.due)] == t
    ensures r[..InsertionPoint(q, t.due)] == q[..InsertionPoint(q, t.due)]
    ensures r[InsertionPoint(q, t.due) + 1..] == q[InsertionPoint(q, t.due)..]
  {
    var k := InsertionPoint(q, t.due);
    InsertAt(q, t, k);
    InsertSorted(q, t, k);
    q[..k] + [t] + q[k..]
  }

  lemma InsertAt(q: seq<Task>, t: Task, k: nat)
    requires k <= |q|
    ensures multiset(q[..k] + [t] + q[k..]) == multiset(q) + multiset{t}
  {
    assert q == q[..k] + q[k..];
  }

  lemma InsertSorted(q: seq<Task>, t: Task, k: nat)
    requires k == InsertionPoint(q, t.due)
    ensures Sorted(q) ==> Sorted(q[..k] + [t] + q[k..])
  {
    if Sorted(q) {
      var r := q[..k] + [t] + q[k..];
      forall i, j | 0 <= i < j < |r|
        ensures r[i].due <= r[j].due
      {
        if j < k {
          assert r[i] == q[i] && r[j] == q[j];
        } else if j == k {
          assert r[i] == q[i] && r[j] == t;
        } else if i < k {
          assert r[i] == q[i] && r[j] == q[j - 1];
        } else if i == k {
          assert r[j] == q[j - 1] && q[k].due <= q[j - 1].due;
        } else {
          assert r[i] == q[i - 1] && r[j] == q[j - 1];
        }
      }
    }
  }

  /** Posting keeps every task that was already queued. */
  lemma PostKeeps(q: seq<Task>, t: Task)
    ensures forall x :: x in q ==> x in Post(q, t)
  {
    forall x | x in q
      ensures x in Post(q, t)
    {
      assert x in multiset(q);
    }
  }

  /** No task in `q` is due before `time`. */
  predicate NotBefore(q: seq<Task>, time: int) {
    forall i :: 0 <= i < |q| ==> time <= q[i].due
  }

  lemma PostNotBefore(q: seq<Task>, t: Task, time: int)
    requires NotBefore(q, time) && time <= t.due
    ensures NotBefore(Post(q, t), time)
  {
    var r := Post(q, t);
    forall i | 0 <= i < |r|
      ensures time <= r[i].due
    {
      assert r[i] in multiset(r);
      assert r[i] in multiset(q) || r[i] == t;
    }
  }

  lemma RemoveCallbacksNotBefore(q: seq<Task>, time: int)
    requires NotBefore(q, time)
    ensures NotBefore(RemoveCallbacks(q), time)
  {
    var r := RemoveCallbacks(q);
    forall i | 0 <= i < |r|
      ensures time <= r[i].due
    {
      assert r[i] in r;
    }
  }

  /** The spawns pending in `q`. */
  function CountSpawns(q: seq<Task>): nat {
    if q == [] then 0 else (if q[0].kind == SpawnTask then 1 else 0) + CountSpawns(q[1..])
  }

  lemma {:induction false} CountSpawnsAppend(a: seq<Task>, b: seq<Task>)
    ensures CountSpawns(a + b) == CountSpawns(a) + CountSpawns(b)
  {
    if a == [] {
      assert a + b == b;
    } else {
      assert (a + b)[1..] == a[1..] + b;
      CountSpawnsAppend(a[1..], b);
    }
  }

  /** Posting a spawn adds exactly one pending spawn; posting anything else
      leaves their number alone. */
  lemma PostCountsSpawns(q: seq<Task>, t: Task)
    ensures CountSpawns(Post(q, t)) == CountSpawns(q) + (if t.kind == SpawnTask then 1 else 0)
  {
    var k := InsertionPoint(q, t.due);
    assert q == q[..k] + q[k..];
    CountSpawnsAppend(q[..k] + [t], q[k..]);
    CountSpawnsAppend(q[..k], [t]);
    CountSpawnsAppend(q[..k], q[k..]);
  }

  /** No spawn is pending exactly when no task in the queue is a spawn. */
  lemma {:induction false} NoSpawnCounted(q: seq<Task>)
    ensures CountSpawns(q) == 0 <==> forall i :: 0 <= i < |q| ==> q[i].kind != SpawnTask
  {
    if q != [] {
      NoSpawnCounted(q[1..]);
      assert forall i :: 1 <= i < |q| ==> q[i] == q[1..][i - 1];
    }
  }

  /** `removeCallbacks(_animationRunnable)`: drop every pending spawn and
      keep every other task, in order. */
  function RemoveCallbacks(q: seq<Task>): (r: seq<Task>)
    ensures forall i :: 0 <= i < |r| ==> r[i].kind != SpawnTask
    ensures forall x :: x in r <==> x in q && x.kind != SpawnTask
    ensures |r| == |q| - CountSpawns(q)
  {
    if q == [] then []
    else if q[0].kind == SpawnTask then RemoveCallbacks(q[1..])
    else [q[0]] + RemoveCallbacks(q[1..])
  }

  /** `removeCallbacks` is a filter: it works task by task, drops a spawn,
      keeps any other task, and keeps the order and number of the tasks it
      keeps. */
  lemma {:induction false} RemoveCallbacksIsFilter(a: seq<Task>, b: seq<Task>, t: Task)
    ensures RemoveCallbacks(a + b) == RemoveCallbacks(a) + RemoveCallbacks(b)
    ensures RemoveCallbacks([t]) == if t.kind == SpawnTask then [] else [t]
  {
    assert [t][1..] == [];
    if a == [] {
      assert a + b == b;
    } else {
      assert (a + b)[0] == a[0] && (a + b)[1..] == a[1..] + b;
      RemoveCallbacksIsFilter(a[1..], b, t);
    }
  }

  /** The tasks that stay keep their order by due time. */
  lemma {:induction false} RemoveCallbacksSorted(q: seq<Task>)
    requires Sorted(q)
    ensures Sorted(RemoveCallbacks(q))
  {
    if q != [] {
      RemoveCallbacksSorted(q[1..]);
      if q[0].kind != SpawnTask {
        assert NotBefore(q[1..], q[0].due) by {
          forall i | 0 <= i < |q[1..]|
            ensures q[0].due <= q[1..][i].due
          {
            assert q[1..][i] == q[i + 1];
          }
        }
        RemoveCallbacksNotBefore(q[1..], q[0].due);
        SortedCons(q[0], RemoveCallbacks(q[1..]));
      }
    }
  }

  lemma SortedCons(t: Task, q: seq<Task>)
    requires Sorted(q) && NotBefore(q, t.due)
    ensures Sorted([t] + q)
  {
    var r := [t] + q;
    forall i, j | 0 <= i < j < |r|
      ensures r[i].due <= r[j].due
    {
      assert r[j] == q[j - 1];
      if i > 0 {
        assert r[i] == q[i - 1];
      }
    }
  }

  /** After the removal no spawn is pending, and removing again changes nothing. */
  lemma RemoveCallbacksLeavesNoSpawn(q: seq<Task>)
    ensures CountSpawns(RemoveCallbacks(q)) == 0
    ensures RemoveCallbacks(RemoveCallbacks(q)) == RemoveCallbacks(q)
  {
    NoSpawnCounted(RemoveCallbacks(q));
    RemoveCallbacksKeepsOthers(RemoveCallbacks(q));
  }

  lemma {:induction false} RemoveCallbacksKeepsOthers(q: seq<Task>)
    requires CountSpawns(q) == 0
    ensures RemoveCallbacks(q) == q
  {
    if q != [] {
      RemoveCallbacksKeepsOthers(q[1..]);
      assert q == [q[0]] + q[1..];
    }
  }
}
