/**
 The scheduler as a transition system.  Every locked region is one step, the scheduler thread moves
 through explicit phases, and any number of other threads add and remove tasks in between.
 */
module SchedulerRuns {
  import opened Scheduling

  /** Where the scheduler thread is: asleep on an empty table or about to look at it; running item `next`
      of a batch without the lock; or waiting on the condition variable until `wake`. */
  datatype Phase<+C> =
    | Idle
    | Running(batch: Batch<C>, next: nat, scanTime: Time)
    | Waiting(wake: Time, scanTime: Time)

  /** `adding` holds the tasks whose id and due time are fixed but which `AddTask` has not yet stored.
      `born` and `unscanned` are history: every task as `AddTask` built it, and the ids stored since the last scan. */
  datatype State<C> = State(
    clock: Time,
    nextId: TaskId,
    adding: Table<C>,
    tasks: Table<C>,
    phase: Phase<C>,
    born: Table<C>,
    unscanned: set<TaskId>)

  datatype Action<C> =
    | Begin(now: Time, interval: int, callback: C, once: bool)
    | Commit(id: TaskId)
    | Remove(id: TaskId)
    | Scan(now: Time, batch: Batch<C>)
    | RunItem
    | Erase
    | Sleep

  ghost predicate IsInitial<C>(s: State<C>) {
    s == State(s.clock, 1, map[], map[], Idle, map[], {})
  }

  ghost predicate Enabled<C>(s: State<C>, a: Action<C>) {
    match a
    case Begin(now, _, _, _) => now >= s.clock
    case Commit(id) => id in s.adding
    case Remove(_) => true
    case Scan(now, batch) => !s.phase.Running? && s.tasks != map[] && now >= s.clock && IsScan(s.tasks, now, batch)
    case RunItem => s.phase.Running? && s.phase.next < |s.phase.batch.fired|
    case Erase => s.phase.Running? && s.phase.next == |s.phase.batch.fired|
    case Sleep => s.phase.Waiting? && s.tasks == map[]
  }

  ghost function Apply<C>(s: State<C>, a: Action<C>): State<C>
    requires Enabled(s, a)
  {
    match a
    case Begin(now, interval, callback, once) =>
      var task := NewTask(s.nextId, interval, callback, once, now);
      s.(clock := now, nextId := s.nextId + 1, adding := s.adding[s.nextId := task], born := s.born[s.nextId := task])
    case Commit(id) =>
      s.(adding := s.adding - {id}, tasks := Emplace(s.tasks, s.adding[id]), unscanned := s.unscanned + {id})
    case Remove(id) =>
      s.(tasks := s.tasks - {id})
    case Scan(now, batch) =>
      s.(clock := now, tasks := RearmAll(s.tasks, now), phase := Running(batch, 0, now), unscanned := {})
    case RunItem =>
      s.(phase := s.phase.(next := s.phase.next + 1))
    case Erase =>
      s.(tasks := s.tasks - IdsOf(s.phase.batch.finished), phase := Waiting(s.phase.batch.wake, s.phase.scanTime))
    case Sleep =>
      s.(phase := Idle)
  }

  ghost predicate Next<C>(s: State<C>, a: Action<C>, t: State<C>) {
    Enabled(s, a) && t == Apply(s, a)
  }

  ghost predicate StepAt<C>(ss: seq<State<C>>, acts: seq<Action<C>>, i: nat)
    requires i < |acts| < |ss|
  {
    Next(ss[i], acts[i], ss[i + 1])
  }

  ghost predicate IsRun<C>(ss: seq<State<C>>, acts: seq<Action<C>>) {
    && |ss| == |acts| + 1
    && IsInitial(ss[0])
    && forall i :: 0 <= i < |acts| ==> StepAt(ss, acts, i)
  }

  // ---- The invariant ----

  ghost predicate SameTask<C>(t: Task<C>, u: Task<C>) {
    t.id == u.id && t.interval == u.interval && t.callback == u.callback && t.once == u.once
  }

  ghost predicate BornInv<C>(s: State<C>) {
    forall id :: id in s.born ==>
      && id < s.nextId && s.born[id].id == id && s.born[id].interval >= MIN_INTERVAL
      && s.born[id].due - s.born[id].interval <= s.clock
  }

  ghost predicate AddingInv<C>(s: State<C>) {
    && (forall id :: id in s.adding ==>
          id in s.born && s.adding[id] == s.born[id] && id !in s.tasks && id !in s.unscanned)
    && (forall id :: id in s.unscanned ==> id in s.born)
  }

  ghost predicate StoredInv<C>(s: State<C>) {
    && (forall id :: id in s.tasks ==> id in s.born && SameTask(s.tasks[id], s.born[id]))
    && (forall id :: id in s.tasks && id in s.unscanned ==> s.tasks[id] == s.born[id])
  }

  ghost predicate TablesInv<C>(s: State<C>) {
    BornInv(s) && AddingInv(s) && StoredInv(s)
  }

  ghost predicate BatchInv<C>(s: State<C>, b: Batch<C>) {
    && |b.callbacks| == |b.fired|
    && (forall i, j :: 0 <= i < j < |b.fired| ==> b.fired[i] != b.fired[j])
    && (forall i :: 0 <= i < |b.fired| ==> b.fired[i] in s.born && b.callbacks[i] == s.born[b.fired[i]].callback)
    && (forall id :: id in b.fired ==> id in s.born && id !in s.adding && id !in s.unscanned)
    && (forall id :: id in b.finished <==> id in b.fired && id in s.born && s.born[id].once)
  }

  /** No stored task is due before `wake`, or was due at the scan, apart from those stored since the scan and those
      about to be erased. */
  ghost predicate WakeInv<C>(s: State<C>, wake: Time, scanTime: Time, finished: seq<TaskId>) {
    forall id :: id in s.tasks && id !in s.unscanned && id !in finished ==>
      wake <= s.tasks[id].due && scanTime < s.tasks[id].due
  }

  ghost predicate PhaseInv<C>(s: State<C>) {
    match s.phase
    case Idle => true
    case Running(b, next, scanTime) =>
      next <= |b.fired| && scanTime <= s.clock && BatchInv(s, b) && WakeInv(s, b.wake, scanTime, b.finished)
    case Waiting(wake, scanTime) => scanTime <= s.clock && WakeInv(s, wake, scanTime, [])
  }

  /** A one-shot that has not been collected is as it was built. */
  ghost predicate OnceInv<C>(s: State<C>) {
    forall id :: StillStored(s, id) && id in s.born && s.born[id].once ==> s.tasks[id] == s.born[id]
  }

  /** The task is stored and has not been collected into the current batch as a one-shot. */
  ghost predicate StillStored<C>(s: State<C>, id: TaskId) {
    id in s.tasks && (s.phase.Running? ==> id !in s.phase.batch.finished)
  }

  ghost predicate Inv<C>(s: State<C>) {
    TablesInv(s) && PhaseInv(s) && OnceInv(s)
  }

  lemma BornKept<C>(s: State<C>, a: Action<C>, t: State<C>)
    requires BornInv(s) && Next(s, a, t)
    ensures BornInv(t)
  {
  }

  lemma AddingKept<C>(s: State<C>, a: Action<C>, t: State<C>)
    requires TablesInv(s) && Next(s, a, t)
    ensures AddingInv(t)
  {
  }

  lemma StoredKept<C>(s: State<C>, a: Action<C>, t: State<C>)
    requires TablesInv(s) && Next(s, a, t)
    ensures StoredInv(t)
  {
  }

  lemma PhaseKept<C>(s: State<C>, a: Action<C>, t: State<C>)
    requires Inv(s) && Next(s, a, t)
    ensures PhaseInv(t)
  {
    if a.Scan? {
      ScannedBatch(s, a, t);
    }
  }

  lemma ScannedBatch<C>(s: State<C>, a: Action<C>, t: State<C>)
    requires Inv(s) && Next(s, a, t) && a.Scan?
    ensures BatchInv(t, a.batch) && WakeInv(t, a.batch.wake, a.now, a.batch.finished)
  {
    forall id ensures id in a.batch.finished <==> id in a.batch.fired && id in t.born && t.born[id].once {
      assert id in a.batch.fired <==> id in DueIds(s.tasks, a.now);
    }
  }

  lemma OnceKept<C>(s: State<C>, a: Action<C>, t: State<C>)
    requires Inv(s) && Next(s, a, t)
    ensures OnceInv(t)
  {
    forall id | StillStored(t, id) && id in t.born && t.born[id].once ensures t.tasks[id] == t.born[id] {
      assert id in s.tasks ==> StillStored(s, id);
      if a.Scan? {
        assert id in a.batch.finished <==> id in FinishedIds(s.tasks, a.now);
      }
    }
  }

  lemma InvKept<C>(s: State<C>, a: Action<C>, t: State<C>)
    requires Inv(s) && Next(s, a, t)
    ensures Inv(t)
  {
    BornKept(s, a, t);
    AddingKept(s, a, t);
    StoredKept(s, a, t);
    PhaseKept(s, a, t);
    OnceKept(s, a, t);
  }

  lemma {:induction false} InvHolds<C>(ss: seq<State<C>>, acts: seq<Action<C>>, n: nat)
    requires IsRun(ss, acts) && n < |ss|
    ensures Inv(ss[n])
  {
    if n > 0 {
      InvHolds(ss, acts, n - 1);
      assert StepAt(ss, acts, n - 1);
      InvKept(ss[n - 1], acts[n - 1], ss[n]);
    }
  }

  // ---- Firing rate ----

  ghost predicate Collects<C>(a: Action<C>, id: TaskId) {
    a.Scan? && id in a.batch.fired
  }

  /** How often the first `n` steps collect `id`. */
  ghost function Firings<C>(acts: seq<Action<C>>, n: nat, id: TaskId): nat
    requires n <= |acts|
  {
    if n == 0 then 0 else Firings(acts, n - 1, id) + if Collects(acts[n - 1], id) then 1 else 0
  }

  ghost function AddTime<C>(task: Task<C>): Time {
    task.due - task.interval
  }

  /** In every run, `k` collections of a task take at least `k` of its intervals, counted from the moment it was
      added; a stored task is not due again before one more interval. */
  lemma FiringRate<C>(ss: seq<State<C>>, acts: seq<Action<C>>, n: nat, id: TaskId)
    requires IsRun(ss, acts) && n < |ss| && id in ss[n].born
    ensures var task := ss[n].born[id];
      var paid := Paid(acts, n, id, task);
      && task.interval >= MIN_INTERVAL
      && paid == AddTime(task) + Firings(acts, n, id) * task.interval
      && paid <= ss[n].clock
      && (id in ss[n].adding ==> Firings(acts, n, id) == 0)
      && (id in ss[n].tasks ==> paid + task.interval <= ss[n].tasks[id].due)
  {
    PaidUp(ss, acts, n, id);
    PaidIs(acts, n, id, ss[n].born[id]);
  }

  /** The add time plus one interval for each collection in the first `n` steps. */
  ghost function Paid<C>(acts: seq<Action<C>>, n: nat, id: TaskId, task: Task<C>): Time
    requires n <= |acts|
  {
    if n == 0 then AddTime(task)
    else Paid(acts, n - 1, id, task) + if Collects(acts[n - 1], id) then task.interval else 0
  }

  lemma {:induction false} PaidIs<C>(acts: seq<Action<C>>, n: nat, id: TaskId, task: Task<C>)
    requires n <= |acts|
    ensures Paid(acts, n, id, task) == AddTime(task) + Firings(acts, n, id) * task.interval
  {
    if n > 0 {
      PaidIs(acts, n - 1, id, task);
      var k := Firings(acts, n - 1, id);
      assert (k + 1) * task.interval == k * task.interval + task.interval;
    }
  }

  lemma {:induction false} PaidUp<C>(ss: seq<State<C>>, acts: seq<Action<C>>, n: nat, id: TaskId)
    requires IsRun(ss, acts) && n < |ss| && id in ss[n].born
    ensures var task := ss[n].born[id];
      var paid := Paid(acts, n, id, task);
      && task.interval >= MIN_INTERVAL
      && paid <= ss[n].clock
      && (id in ss[n].adding ==> Firings(acts, n, id) == 0 && paid == AddTime(task))
      && (id in ss[n].tasks ==> paid + task.interval <= ss[n].tasks[id].due)
  {
    assert n > 0;
    var m := n - 1;
    if id in ss[m].born {
      PaidUp(ss, acts, m, id);
      RateKept(ss, acts, m, id, Paid(acts, m, id, ss[m].born[id]));
    } else {
      FirstBorn(ss, acts, m, id);
      NeverCollectedUnborn(ss, acts, m, id);
      PaidIs(acts, m, id, ss[n].born[id]);
    }
  }

  lemma FirstBorn<C>(ss: seq<State<C>>, acts: seq<Action<C>>, m: nat, id: TaskId)
    requires IsRun(ss, acts) && m < |acts| && id !in ss[m].born && id in ss[m + 1].born
    ensures var task := ss[m + 1].born[id];
      && task.interval >= MIN_INTERVAL && AddTime(task) == ss[m + 1].clock
      && id !in ss[m + 1].tasks && !Collects(acts[m], id)
  {
    InvHolds(ss, acts, m);
    assert StepAt(ss, acts, m);
  }

  /** One step of the rate bound: `paid` is the add time plus one interval for each collection so far. */
  lemma RateKept<C>(ss: seq<State<C>>, acts: seq<Action<C>>, m: nat, id: TaskId, paid: Time)
    requires IsRun(ss, acts) && m < |acts| && id in ss[m].born && paid <= ss[m].clock
    requires id in ss[m].adding ==> paid == AddTime(ss[m].born[id])
    requires id in ss[m].tasks ==> paid + ss[m].born[id].interval <= ss[m].tasks[id].due
    ensures var n := m + 1;
      && id in ss[n].born && ss[n].born[id] == ss[m].born[id]
      && (id in ss[n].adding ==> id in ss[m].adding && !Collects(acts[m], id))
      && var now := if Collects(acts[m], id) then paid + ss[m].born[id].interval else paid;
      && now <= ss[n].clock
      && (id in ss[n].tasks ==> now + ss[n].born[id].interval <= ss[n].tasks[id].due)
  {
    InvHolds(ss, acts, m);
    assert StepAt(ss, acts, m);
  }

  lemma {:induction false} NeverCollectedUnborn<C>(ss: seq<State<C>>, acts: seq<Action<C>>, n: nat, id: TaskId)
    requires IsRun(ss, acts) && n < |ss| && id !in ss[n].born
    ensures Firings(acts, n, id) == 0
  {
    if n > 0 {
      InvHolds(ss, acts, n - 1);
      assert StepAt(ss, acts, n - 1);
      NeverCollectedUnborn(ss, acts, n - 1, id);
    }
  }

  /** The scan that collects a task for the n-th time happens n intervals or more after the task was added. */
  lemma NthFiringTime<C>(ss: seq<State<C>>, acts: seq<Action<C>>, i: nat, id: TaskId)
    requires IsRun(ss, acts) && i < |acts| && Collects(acts[i], id)
    ensures id in ss[i].born
    ensures acts[i].now >= AddTime(ss[i].born[id]) + Firings(acts, i + 1, id) * ss[i].born[id].interval
  {
    InvHolds(ss, acts, i);
    assert StepAt(ss, acts, i);
    FiringRate(ss, acts, i + 1, id);
  }

  // ---- One-shot tasks ----

  /** Over a whole run a one-shot task enters at most one batch.  Once it has, it is stored no longer than until
      the batch it is in is erased. */
  lemma {:induction false} OneShotFiresAtMostOnce<C>(ss: seq<State<C>>, acts: seq<Action<C>>, n: nat, id: TaskId)
    requires IsRun(ss, acts) && n < |ss| && id in ss[n].born && ss[n].born[id].once
    ensures Firings(acts, n, id) <= 1
    ensures Firings(acts, n, id) == 1 ==>
      id !in ss[n].adding && (id in ss[n].tasks ==> ss[n].phase.Running? && id in ss[n].phase.batch.finished)
  {
    assert n > 0;
    var m := n - 1;
    InvHolds(ss, acts, m);
    assert StepAt(ss, acts, m);
    if id in ss[m].born {
      OneShotFiresAtMostOnce(ss, acts, m, id);
    } else {
      NeverCollectedUnborn(ss, acts, m, id);
    }
  }

  ghost predicate Undisturbed<C>(acts: seq<Action<C>>, i: nat, j: nat, id: TaskId, due: Time)
    requires i <= j <= |acts|
  {
    forall k :: i <= k < j ==> acts[k] != Remove(id) && (acts[k].Scan? ==> acts[k].now < due)
  }

  /** A one-shot that is not removed enters exactly the batch of the first scan at or after its due time, and is
      gone before any later scan. */
  lemma OneShotExactness<C>(ss: seq<State<C>>, acts: seq<Action<C>>, i: nat, j: nat, k: nat, id: TaskId)
    requires IsRun(ss, acts) && i < j < |acts| && k < |acts|
    requires acts[i] == Commit(id) && id in ss[i].adding && ss[i].adding[id].once
    requires acts[j].Scan? && acts[j].now >= ss[i].adding[id].due
    requires Undisturbed(acts, i + 1, j, id, ss[i].adding[id].due)
    ensures Collects(acts[k], id) <==> k == j
    ensures j < k && acts[k].Scan? ==> id !in ss[k].tasks
  {
    FirstDueScan(ss, acts, i, j, id);
    if Collects(acts[k], id) {
      var n := if k < j then j + 1 else k + 1;
      BornStays(ss, acts, j, n, id);
      OneShotFiresAtMostOnce(ss, acts, n, id);
      OnlyFiring(acts, j, k, id);
    }
    if j < k && acts[k].Scan? {
      BornStays(ss, acts, j, k, id);
      CollectedOnce(ss, acts, j, k, id);
      NotRunningAtScan(ss, acts, k);
    }
  }

  lemma FirstDueScan<C>(ss: seq<State<C>>, acts: seq<Action<C>>, i: nat, j: nat, id: TaskId)
    requires IsRun(ss, acts) && i < j < |acts|
    requires acts[i] == Commit(id) && id in ss[i].adding && ss[i].adding[id].once
    requires acts[j].Scan? && acts[j].now >= ss[i].adding[id].due
    requires Undisturbed(acts, i + 1, j, id, ss[i].adding[id].due)
    ensures Collects(acts[j], id) && id in ss[j].born && ss[j].born[id].once
  {
    StaysUntilDue(ss, acts, i, j, id);
    assert StepAt(ss, acts, j);
    assert id in DueIds(ss[j].tasks, acts[j].now);
  }

  lemma NotRunningAtScan<C>(ss: seq<State<C>>, acts: seq<Action<C>>, k: nat)
    requires IsRun(ss, acts) && k < |acts| && acts[k].Scan?
    ensures !ss[k].phase.Running?
  {
    assert StepAt(ss, acts, k);
  }

  lemma CollectedOnce<C>(ss: seq<State<C>>, acts: seq<Action<C>>, j: nat, n: nat, id: TaskId)
    requires IsRun(ss, acts) && j < n <= |acts| && Collects(acts[j], id)
    requires id in ss[n].born && ss[n].born[id].once
    ensures Firings(acts, n, id) == 1
    ensures id in ss[n].tasks ==> ss[n].phase.Running?
  {
    FiringsGrow(acts, j + 1, n, id);
    OneShotFiresAtMostOnce(ss, acts, n, id);
  }

  lemma OnlyFiring<C>(acts: seq<Action<C>>, j: nat, k: nat, id: TaskId)
    requires j < |acts| && k < |acts| && Collects(acts[j], id) && Collects(acts[k], id)
    requires Firings(acts, (if j < k then k else j) + 1, id) <= 1
    ensures j == k
  {
    if j != k {
      FiringsGrow(acts, (if j < k then j else k) + 1, if j < k then k else j, id);
    }
  }

  lemma {:induction false} StaysUntilDue<C>(ss: seq<State<C>>, acts: seq<Action<C>>, i: nat, j: nat, id: TaskId)
    requires IsRun(ss, acts) && i < j <= |acts|
    requires acts[i] == Commit(id) && id in ss[i].adding
    requires Undisturbed(acts, i + 1, j, id, ss[i].adding[id].due)
    ensures id in ss[j].tasks && ss[j].tasks[id] == ss[i].adding[id] && id !in ss[j].adding
    ensures id in ss[j].born && ss[j].born[id] == ss[i].adding[id]
    ensures ss[j].phase.Running? ==> id !in ss[j].phase.batch.fired
  {
    InvHolds(ss, acts, j - 1);
    InvHolds(ss, acts, j);
    assert StepAt(ss, acts, j - 1);
    if i < j - 1 {
      StaysUntilDue(ss, acts, i, j - 1, id);
      assert acts[j - 1] != Remove(id);
    }
  }

  lemma {:induction false} BornStays<C>(ss: seq<State<C>>, acts: seq<Action<C>>, i: nat, j: nat, id: TaskId)
    requires IsRun(ss, acts) && i <= j < |ss| && id in ss[i].born
    ensures id in ss[j].born && ss[j].born[id] == ss[i].born[id]
  {
    if i < j {
      BornStays(ss, acts, i, j - 1, id);
      InvHolds(ss, acts, j - 1);
      assert StepAt(ss, acts, j - 1);
    }
  }

  lemma {:induction false} FiringsGrow<C>(acts: seq<Action<C>>, i: nat, j: nat, id: TaskId)
    requires i <= j <= |acts|
    ensures Firings(acts, i, id) <= Firings(acts, j, id)
  {
    if i < j {
      FiringsGrow(acts, i, j - 1, id);
    }
  }

  // ---- Removal ----

  /** The item the scheduler thread starts in step `k`. */
  ghost predicate RunsTask<C>(s: State<C>, a: Action<C>, id: TaskId) {
    a.RunItem? && Enabled(s, a) && s.phase.batch.fired[s.phase.next] == id
  }

  /** `id` is still to run from the current batch. */
  ghost predicate AwaitsRun<C>(p: Phase<C>, id: TaskId) {
    p.Running? && exists j :: p.next <= j < |p.batch.fired| && p.batch.fired[j] == id
  }

  /** Once `RemoveTask` has run for a stored task, no later scan collects it, and it can run only from the batch
      that held it when it was removed. */
  lemma RemovalIsFinal<C>(ss: seq<State<C>>, acts: seq<Action<C>>, i: nat, k: nat, id: TaskId)
    requires IsRun(ss, acts) && i < k < |acts| && acts[i] == Remove(id) && id in ss[i].tasks
    ensures !Collects(acts[k], id) && id !in ss[k].tasks
    ensures RunsTask(ss[k], acts[k], id) ==> AwaitsRun(ss[i].phase, id) && ss[i].phase.batch == ss[k].phase.batch
  {
    GoneAfterRemoval(ss, acts, i, k, id);
    NotCollected(ss, acts, k, id);
  }

  /** ... and it runs from there at most once. */
  lemma RunsOnceAfterRemoval<C>(ss: seq<State<C>>, acts: seq<Action<C>>, i: nat, k: nat, l: nat, id: TaskId)
    requires IsRun(ss, acts) && i < k < l < |acts| && acts[i] == Remove(id) && id in ss[i].tasks
    requires RunsTask(ss[k], acts[k], id)
    ensures !RunsTask(ss[l], acts[l], id)
  {
    GoneAfterRemoval(ss, acts, i, k + 1, id);
    RunOnce(ss, acts, k, id);
    BatchMovesOn(ss, acts, k + 1, l, id);
    NotCollected(ss, acts, l, id);
  }

  lemma NotCollected<C>(ss: seq<State<C>>, acts: seq<Action<C>>, k: nat, id: TaskId)
    requires IsRun(ss, acts) && k < |acts| && Gone(ss[k], id)
    ensures !Collects(acts[k], id)
    ensures RunsTask(ss[k], acts[k], id) ==> AwaitsRun(ss[k].phase, id)
  {
    assert StepAt(ss, acts, k);
  }

  lemma RunOnce<C>(ss: seq<State<C>>, acts: seq<Action<C>>, k: nat, id: TaskId)
    requires IsRun(ss, acts) && k < |acts| && RunsTask(ss[k], acts[k], id)
    ensures !AwaitsRun(ss[k + 1].phase, id)
  {
    InvHolds(ss, acts, k);
    assert StepAt(ss, acts, k);
  }

  /** The task exists no more, apart from a batch that may still hold its callback. */
  ghost predicate Gone<C>(s: State<C>, id: TaskId) {
    id in s.born && id !in s.tasks && id !in s.adding
  }

  lemma GoneKept<C>(s: State<C>, a: Action<C>, t: State<C>, id: TaskId)
    requires Inv(s) && Next(s, a, t) && Gone(s, id)
    ensures Gone(t, id)
  {
  }

  lemma StaysGone<C>(ss: seq<State<C>>, acts: seq<Action<C>>, m: nat, id: TaskId)
    requires IsRun(ss, acts) && m < |acts| && Gone(ss[m], id)
    ensures Gone(ss[m + 1], id)
    ensures AwaitsRun(ss[m + 1].phase, id) ==> AwaitsRun(ss[m].phase, id) && ss[m].phase.batch == ss[m + 1].phase.batch
  {
    InvHolds(ss, acts, m);
    assert StepAt(ss, acts, m);
    if acts[m].Scan? {
      assert id !in DueIds(ss[m].tasks, acts[m].now);
    }
  }

  lemma {:induction false} GoneAfterRemoval<C>(ss: seq<State<C>>, acts: seq<Action<C>>, i: nat, k: nat, id: TaskId)
    requires IsRun(ss, acts) && i < k < |ss| && acts[i] == Remove(id) && id in ss[i].tasks
    ensures Gone(ss[k], id)
    ensures AwaitsRun(ss[k].phase, id) ==> AwaitsRun(ss[i].phase, id) && ss[i].phase.batch == ss[k].phase.batch
  {
    if i == k - 1 {
      InvHolds(ss, acts, i);
      assert StepAt(ss, acts, i);
    } else {
      GoneAfterRemoval(ss, acts, i, k - 1, id);
      StaysGone(ss, acts, k - 1, id);
    }
  }

  lemma {:induction false} BatchMovesOn<C>(ss: seq<State<C>>, acts: seq<Action<C>>, k: nat, l: nat, id: TaskId)
    requires IsRun(ss, acts) && k <= l < |ss| && Gone(ss[k], id) && !AwaitsRun(ss[k].phase, id)
    ensures Gone(ss[l], id) && !AwaitsRun(ss[l].phase, id)
  {
    if k < l {
      BatchMovesOn(ss, acts, k, l - 1, id);
      StaysGone(ss, acts, l - 1, id);
    }
  }

  /** No scan in the steps from `c` up to `n`. */
  ghost predicate NoScan<C>(acts: seq<Action<C>>, c: nat, n: nat)
    requires c <= n <= |acts|
  {
    forall k :: c <= k < n ==> !acts[k].Scan?
  }

  /** The deferred erasure takes one-shots of its own batch only: a task stored since the scan survives it. */
  lemma EraseSparesNewTasks<C>(ss: seq<State<C>>, acts: seq<Action<C>>, c: nat, n: nat, id: TaskId)
    requires IsRun(ss, acts) && c < n < |acts|
    requires acts[c] == Commit(id) && NoScan(acts, c, n) && acts[n] == Erase && id in ss[n].tasks
    ensures id in ss[n + 1].tasks && ss[n + 1].tasks[id] == ss[n].tasks[id]
  {
    StoredSinceScan(ss, acts, c, n, id);
    InvHolds(ss, acts, n);
    assert StepAt(ss, acts, n);
  }

  lemma {:induction false} StoredSinceScan<C>(ss: seq<State<C>>, acts: seq<Action<C>>, c: nat, n: nat, id: TaskId)
    requires IsRun(ss, acts) && c < n < |ss| && acts[c] == Commit(id) && NoScan(acts, c, n)
    ensures id in ss[n].unscanned
  {
    assert StepAt(ss, acts, n - 1);
    if c < n - 1 {
      StoredSinceScan(ss, acts, c, n - 1, id);
    }
  }

  // ---- Wake time ----

  lemma {:induction false} UnscannedMeaning<C>(ss: seq<State<C>>, acts: seq<Action<C>>, n: nat, id: TaskId)
      returns (c: nat)
    requires IsRun(ss, acts) && n < |ss| && id in ss[n].unscanned
    ensures c < n && acts[c] == Commit(id) && NoScan(acts, c, n)
  {
    assert StepAt(ss, acts, n - 1);
    if acts[n - 1] == Commit(id) {
      c := n - 1;
    } else {
      c := UnscannedMeaning(ss, acts, n - 1, id);
    }
  }

  /** When the thread waits, every stored task that is due before the wake time was stored after the last scan,
      whatever was removed in between. */
  lemma WakeTimeIsSafe<C>(ss: seq<State<C>>, acts: seq<Action<C>>, n: nat, id: TaskId)
    requires IsRun(ss, acts) && n < |ss| && ss[n].phase.Waiting?
    requires id in ss[n].tasks && ss[n].tasks[id].due < ss[n].phase.wake
    ensures exists c :: 0 <= c < n && acts[c] == Commit(id) && NoScan(acts, c, n)
  {
    InvHolds(ss, acts, n);
    var c := UnscannedMeaning(ss, acts, n, id);
  }

  /** With no task stored between the scan and the wait, no deadline is missed by sleeping until the wake time. */
  lemma QuietWaitMissesNothing<C>(ss: seq<State<C>>, acts: seq<Action<C>>, j: nat, n: nat)
    requires IsRun(ss, acts) && j < n < |ss| && acts[j].Scan? && ss[n].phase.Waiting?
    requires forall k :: j < k < n ==> !acts[k].Commit?
    ensures forall id :: id in ss[n].tasks ==> ss[n].phase.wake <= ss[n].tasks[id].due
  {
    forall id | id in ss[n].tasks ensures ss[n].phase.wake <= ss[n].tasks[id].due {
      if ss[n].tasks[id].due < ss[n].phase.wake {
        WakeTimeIsSafe(ss, acts, n, id);
      }
    }
  }

  // ---- Tasks as they were asked for ----

  lemma BornGrows<C>(s: State<C>, a: Action<C>, t: State<C>, id: TaskId)
    requires BornInv(s) && Next(s, a, t) && id in s.born
    ensures id in t.born && t.born[id] == s.born[id]
  {
  }

  /** In every run a task is, from the step that builds it on, the task that was asked for, due one interval later, the
      interval being at least 15 ms; when it is stored, that is what is stored, but for the due time. */
  lemma AddedTask<C>(ss: seq<State<C>>, acts: seq<Action<C>>, i: nat, n: nat)
    requires IsRun(ss, acts) && i < n < |ss| && acts[i].Begin?
    ensures var id, a := ss[i].nextId, acts[i];
      && id in ss[n].born
      && var task := ss[n].born[id];
      && task.id == id && task.callback == a.callback && task.once == a.once
      && task.interval == (if a.interval <= 15_000_000 then 15_000_000 else a.interval)
      && task.due == a.now + task.interval
      && (id in ss[n].tasks ==> ss[n].tasks[id].(due := task.due) == task)
  {
    InvHolds(ss, acts, i);
    InvHolds(ss, acts, n);
    assert StepAt(ss, acts, i);
    BornStays(ss, acts, i + 1, n, ss[i].nextId);
  }

  /** A scan collects a task if and only if it is stored and due. */
  lemma CollectsExactly<C>(ss: seq<State<C>>, acts: seq<Action<C>>, k: nat, id: TaskId)
    requires IsRun(ss, acts) && k < |acts| && acts[k].Scan?
    ensures Collects(acts[k], id) <==> id in ss[k].tasks && ss[k].tasks[id].due <= acts[k].now
  {
    assert StepAt(ss, acts, k);
    assert id in acts[k].batch.fired <==> id in DueIds(ss[k].tasks, acts[k].now);
  }

  /** A periodic task that is not removed stays, whatever batches it is in. */
  lemma {:induction false} PeriodicTaskStays<C>(ss: seq<State<C>>, acts: seq<Action<C>>, m: nat, n: nat, id: TaskId)
    requires IsRun(ss, acts) && m <= n < |ss| && id in ss[m].tasks && !ss[m].tasks[id].once
    requires forall k :: m <= k < n ==> acts[k] != Remove(id)
    ensures id in ss[n].tasks && !ss[n].tasks[id].once
  {
    if m < n {
      PeriodicTaskStays(ss, acts, m, n - 1, id);
      InvHolds(ss, acts, n - 1);
      assert StepAt(ss, acts, n - 1) && acts[n - 1] != Remove(id);
    }
  }

  /** A collected task is due again one interval after the scan; one that was not due is as it was. */
  lemma RearmedExactly<C>(ss: seq<State<C>>, acts: seq<Action<C>>, k: nat, id: TaskId)
    requires IsRun(ss, acts) && k < |acts| && acts[k].Scan? && id in ss[k].tasks
    ensures id in ss[k + 1].tasks
    ensures var task := ss[k].tasks[id];
      ss[k + 1].tasks[id] == if Collects(acts[k], id) then task.(due := acts[k].now + task.interval) else task
  {
    assert StepAt(ss, acts, k);
    CollectsExactly(ss, acts, k, id);
  }

  // ---- One task, step by step ----

  lemma StoredByCommit<C>(s: State<C>, t: State<C>, id: TaskId)
    requires Inv(s) && Next(s, Commit(id), t)
    ensures StillStored(t, id)
  {
  }

  /** A stored task stays, unless it is removed, until a scan collects it. */
  lemma StoredOrCollected<C>(s: State<C>, a: Action<C>, t: State<C>, id: TaskId)
    requires Inv(s) && Next(s, a, t) && StillStored(s, id) && a != Remove(id)
    ensures StillStored(t, id) || AwaitsRun(t.phase, id)
  {
    if a.Scan? {
      assert id in a.batch.fired <==> id in DueIds(s.tasks, a.now);
      assert id in a.batch.finished <==> id in FinishedIds(s.tasks, a.now);
    }
  }

  /** A collected task stays in the batch until the thread starts it. */
  lemma AwaitsUntilRun<C>(s: State<C>, a: Action<C>, t: State<C>, id: TaskId)
    requires Next(s, a, t) && AwaitsRun(s.phase, id) && !RunsTask(s, a, id)
    ensures AwaitsRun(t.phase, id)
  {
  }

  /** Only a scan puts a task into the batch; one that is stored by the step is not in it. */
  lemma AwaitedBefore<C>(s: State<C>, a: Action<C>, t: State<C>, id: TaskId)
    requires Inv(s) && Next(s, a, t) && AwaitsRun(t.phase, id) && !a.Scan?
    ensures AwaitsRun(s.phase, id) && a != Commit(id)
  {
  }

  /** A one-shot that a scan has collected is stored no longer than until its batch is erased. */
  ghost predicate Spent<C>(s: State<C>, id: TaskId) {
    id in s.born && id !in s.adding && (id in s.tasks ==> s.phase.Running? && id in s.phase.batch.finished)
  }

  lemma SpentByScan<C>(s: State<C>, a: Action<C>, t: State<C>, id: TaskId)
    requires Inv(s) && Next(s, a, t) && a.Scan? && id in s.tasks && s.tasks[id].once && s.tasks[id].due <= a.now
    ensures Spent(t, id)
  {
    assert id in FinishedIds(s.tasks, a.now);
  }

  lemma SpentStays<C>(s: State<C>, a: Action<C>, t: State<C>, id: TaskId)
    requires Inv(s) && Next(s, a, t) && Spent(s, id)
    ensures Spent(t, id)
  {
  }
}
