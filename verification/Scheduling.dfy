/**
 The scheduler's task table and the locked regions of `SchedulingSystem`: adding and removing a task,
 the scan that collects the due tasks, and the erasure of the one-shots a batch has run.

 Time is a mathematical integer in nanoseconds and is read by the caller, who passes the reading in.
 `C` stands for the type of a task's callback, a value that is only copied here.
 */
module Scheduling {
  import opened Scripts

  type TaskId = nat
  type Time = int
  type Table<C> = map<TaskId, Task<C>>

  const MIN_INTERVAL := 15_000_000
  const TIME_MAX: Time := 0x7FFF_FFFF_FFFF_FFFF

  datatype Task<+C> = Task(id: TaskId, interval: int, due: Time, callback: C, once: bool)

  /** What a scan hands to the unlocked part of the loop.  `fired` names the tasks whose callbacks were
      copied (the code keeps the callbacks alone). */
  datatype Batch<+C> = Batch(fired: seq<TaskId>, callbacks: seq<C>, finished: seq<TaskId>, wake: Time)

  function Clamp(interval: int): int {
    if interval <= MIN_INTERVAL then MIN_INTERVAL else interval
  }

  function NewTask<C>(id: TaskId, interval: int, callback: C, once: bool, now: Time): Task<C> {
    Task(id, Clamp(interval), now + Clamp(interval), callback, once)
  }

  /** `emplace`: an id that is already in the table keeps its task. */
  function Emplace<C>(tasks: Table<C>, task: Task<C>): Table<C> {
    if task.id in tasks then tasks else tasks[task.id := task]
  }

  ghost predicate WellFormed<C>(tasks: Table<C>) {
    forall id :: id in tasks ==> tasks[id].id == id && tasks[id].interval >= MIN_INTERVAL
  }

  function DueIds<C>(tasks: Table<C>, now: Time): set<TaskId> {
    set id | id in tasks && now >= tasks[id].due
  }

  function FinishedIds<C>(tasks: Table<C>, now: Time): set<TaskId> {
    set id | id in tasks && now >= tasks[id].due && tasks[id].once
  }

  function IdsOf(s: seq<TaskId>): set<TaskId> {
    set id | id in s
  }

  function Rearmed<C>(task: Task<C>, now: Time): Task<C> {
    if now >= task.due then task.(due := now + task.interval) else task
  }

  function RearmAll<C>(tasks: Table<C>, now: Time): Table<C> {
    map id | id in tasks :: Rearmed(tasks[id], now)
  }

  ghost predicate Lists(s: seq<TaskId>, ids: set<TaskId>) {
    && (forall i, j :: 0 <= i < j < |s| ==> s[i] != s[j])
    && (forall id :: id in s <==> id in ids)
  }

  /** `wake` is the least due time after the scan of the tasks in `kept`, or the greatest time if that is less. */
  ghost predicate IsWakeTime<C>(tasks: Table<C>, now: Time, kept: set<TaskId>, wake: Time)
    requires kept <= tasks.Keys
  {
    && wake <= TIME_MAX
    && (forall id :: id in kept ==> wake <= Rearmed(tasks[id], now).due)
    && (wake == TIME_MAX || exists id :: id in kept && wake == Rearmed(tasks[id], now).due)
  }

  /** The relation between a table and a batch collected from it at `now`, in any order of iteration. */
  ghost predicate IsScan<C>(tasks: Table<C>, now: Time, b: Batch<C>) {
    && Lists(b.fired, DueIds(tasks, now))
    && |b.callbacks| == |b.fired|
    && (forall i :: 0 <= i < |b.fired| ==> b.fired[i] in tasks && b.callbacks[i] == tasks[b.fired[i]].callback)
    && Lists(b.finished, FinishedIds(tasks, now))
    && IsWakeTime(tasks, now, tasks.Keys - FinishedIds(tasks, now), b.wake)
  }

  class SchedulingSystem<C> {
    var nextId: TaskId
    var tasks: Table<C>

    ghost predicate Valid()
      reads this
    {
      WellFormed(tasks) && forall id :: id in tasks ==> id < nextId
    }

    constructor ()
      ensures Valid() && nextId == 1 && tasks == map[]
    {
      nextId, tasks := 1, map[];
    }

    method AddTask(interval: int, callback: C, once: bool, now: Time) returns (id: TaskId)
      requires Valid()
      modifies this
      ensures Valid()
      ensures id == old(nextId) && nextId == old(nextId) + 1
      ensures tasks == old(tasks)[id := NewTask(id, interval, callback, once, now)]
      ensures id !in old(tasks)
      ensures tasks[id].interval == (if interval <= 15_000_000 then 15_000_000 else interval)
      ensures tasks[id].due == now + tasks[id].interval && tasks[id].once == once && tasks[id].callback == callback
    {
      id := nextId;
      nextId := nextId + 1;
      var task := Task(id, interval, 0, callback, once);
      if task.interval <= MIN_INTERVAL {
        task := task.(interval := MIN_INTERVAL);
      }
      task := task.(due := now + task.interval);
      tasks := Emplace(tasks, task);
    }

    method SchedulePeriodically(interval: int, callback: C, now: Time) returns (id: TaskId)
      requires Valid()
      modifies this
      ensures Valid()
      ensures id == old(nextId) && nextId == old(nextId) + 1
      ensures tasks == old(tasks)[id := NewTask(id, interval, callback, false, now)]
    {
      id := AddTask(interval, callback, false, now);
    }

    method ScheduleAfter(duration: int, callback: C, now: Time) returns (id: TaskId)
      requires Valid()
      modifies this
      ensures Valid()
      ensures id == old(nextId) && nextId == old(nextId) + 1 && id !in old(tasks)
      ensures tasks == old(tasks)[id := NewTask(id, duration, callback, true, now)]
    {
      id := AddTask(duration, callback, true, now);
    }

    method RemoveTask(handle: TaskId)
      requires Valid()
      modifies this`tasks
      ensures Valid()
      ensures tasks == old(tasks) - {handle}
    {
      tasks := tasks - {handle};
    }

    /** The locked loop of `ProcessTasks` over the table.  The choice of the next id is arbitrary, so the
        postcondition holds for every iteration order of the hash map. */
    method Scan(now: Time) returns (b: Batch<C>)
      requires Valid()
      modifies this`tasks
      ensures Valid()
      ensures tasks == RearmAll(old(tasks), now)
      ensures IsScan(old(tasks), now, b)
    {
      ghost var before := tasks;
      b := Batch([], [], [], TIME_MAX);
      var remaining := tasks.Keys;
      ScanBegins(tasks, now);
      while remaining != {}
        invariant remaining <= before.Keys && Valid()
        invariant PartlyScanned(before, now, remaining, tasks, b)
      {
        var id :| id in remaining;
        VisitOne(before, now, remaining, id, tasks, b);
        remaining := remaining - {id};
        b := Visit(id, now, b);
      }
      ScanEnds(before, now, tasks, b);
    }

    /** The body of the scan's loop, for one task. */
    method Visit(id: TaskId, now: Time, b: Batch<C>) returns (c: Batch<C>)
      requires Valid() && id in tasks
      modifies this`tasks
      ensures Valid()
      ensures tasks == old(tasks)[id := Rearmed(old(tasks)[id], now)]
      ensures c == Visited(old(tasks)[id], now, b)
    {
      c := b;
      var task := tasks[id];
      if now >= task.due {
        c := c.(callbacks := c.callbacks + [task.callback], fired := c.fired + [id]);
        task := task.(due := now + task.interval);
        tasks := tasks[id := task];
        if task.once {
          return c.(finished := c.finished + [task.id]);
        }
      }
      c := c.(wake := Least(c.wake, task.due));
    }

    /** The deferred erasure, after the batch has run. */
    method EraseFinished(finished: seq<TaskId>)
      requires Valid()
      modifies this`tasks
      ensures Valid()
      ensures tasks == old(tasks) - IdsOf(finished)
    {
      for i := 0 to |finished|
        invariant tasks == old(tasks) - IdsOf(finished[..i])
      {
        tasks := tasks - {finished[i]};
      }
      assert finished[..|finished|] == finished;
    }

    ghost function View(): Tables<C>
      reads this
    {
      Tables(tasks, nextId)
    }

    /** Runs the body of a callback, which may add and remove tasks. */
    method RunCallback(ops: seq<Op<C>>)
      requires Valid()
      modifies this
      ensures Valid() && View() == PerformAll(old(View()), ops)
    {
      for i := 0 to |ops|
        invariant Valid() && View() == PerformAll(old(View()), ops[..i])
      {
        assert ops[..i + 1][..i] == ops[..i];
        match ops[i]
        case AddTask(interval, callback, once, time) => var _ := AddTask(interval, callback, once, time);
        case RemoveTask(id) => RemoveTask(id);
      }
      assert ops[..|ops|] == ops;
    }

    /** One turn of the loop of `ProcessTasks`, when no other thread interferes: scan, run the callbacks that were
        copied, erase.  `script` says what each callback does. */
    method ProcessBatch(now: Time, script: Script<Op<C>>) returns (b: Batch<C>)
      requires Valid()
      modifies this
      ensures Valid()
      ensures IsScan(old(tasks), now, b)
      ensures View() == Processed(old(View()), now, b, script)
    {
      b := Scan(now);
      ghost var v := View();
      for i := 0 to |b.callbacks|
        invariant Valid() && View() == Ran(v, i, script)
      {
        RunCallback(script(i));
      }
      EraseFinished(b.finished);
    }
  }

  // ---- A whole turn of the loop ----

  /** What the body of a callback may do to the scheduler that is running it. */
  datatype Op<+C> = AddTask(interval: int, callback: C, once: bool, time: Time) | RemoveTask(id: TaskId)

  datatype Tables<C> = Tables(tasks: Table<C>, nextId: TaskId)

  function Perform<C>(v: Tables<C>, op: Op<C>): Tables<C> {
    match op
    case AddTask(interval, callback, once, time) =>
      Tables(v.tasks[v.nextId := NewTask(v.nextId, interval, callback, once, time)], v.nextId + 1)
    case RemoveTask(id) => v.(tasks := v.tasks - {id})
  }

  function PerformAll<C>(v: Tables<C>, ops: seq<Op<C>>): Tables<C> {
    if ops == [] then v else Perform(PerformAll(v, ops[..|ops| - 1]), ops[|ops| - 1])
  }

  /** The tables when the first `n` callbacks of a batch have run. */
  function Ran<C>(v: Tables<C>, n: nat, script: Script<Op<C>>): Tables<C> {
    if n == 0 then v else PerformAll(Ran(v, n - 1, script), script(n - 1))
  }

  /** The tables after the scan, the callbacks and the erasure. */
  function Processed<C>(v: Tables<C>, now: Time, b: Batch<C>, script: Script<Op<C>>): Tables<C> {
    var t := Ran(v.(tasks := RearmAll(v.tasks, now)), |b.callbacks|, script);
    t.(tasks := t.tasks - IdsOf(b.finished))
  }

  ghost predicate BelowNext<C>(v: Tables<C>) {
    forall id :: id in v.tasks ==> id < v.nextId
  }

  lemma {:induction false} PerformedTask<C>(v: Tables<C>, ops: seq<Op<C>>, id: TaskId)
    requires BelowNext(v) && id < v.nextId
    ensures var t := PerformAll(v, ops);
      && BelowNext(t) && v.nextId <= t.nextId
      && (id in t.tasks <==> id in v.tasks && Op<C>.RemoveTask(id) !in ops)
      && (id in t.tasks ==> t.tasks[id] == v.tasks[id])
  {
    if ops != [] {
      var front, last := ops[..|ops| - 1], ops[|ops| - 1];
      assert ops == front + [last];
      PerformedTask(v, front, id);
    }
  }

  lemma {:induction false} RanTask<C>(v: Tables<C>, n: nat, script: Script<Op<C>>, id: TaskId)
    requires BelowNext(v) && id < v.nextId
    ensures var t := Ran(v, n, script);
      && BelowNext(t) && v.nextId <= t.nextId
      && (id in t.tasks <==> id in v.tasks && NoneDoes(script, n, Op<C>.RemoveTask(id)))
      && (id in t.tasks ==> t.tasks[id] == v.tasks[id])
  {
    if n > 0 {
      RanTask(v, n - 1, script, id);
      PerformedTask(Ran(v, n - 1, script), script(n - 1), id);
    }
  }

  // ---- The tasks that callbacks add ----

  /** How many tasks the operations add. */
  function Adds<C>(ops: seq<Op<C>>): nat {
    if ops == [] then 0 else Adds(ops[..|ops| - 1]) + if ops[|ops| - 1].AddTask? then 1 else 0
  }

  /** Operation `i` adds the task `id`. */
  predicate AddsTask<C>(first: TaskId, ops: seq<Op<C>>, i: nat, id: TaskId) {
    i < |ops| && ops[i].AddTask? && id == first + Adds(ops[..i])
  }

  /** The task as it was asked for: not before 15 ms from then. */
  ghost predicate IsBuiltFrom<C>(task: Task<C>, op: Op<C>, id: TaskId) {
    && op.AddTask? && task.id == id && task.callback == op.callback && task.once == op.once
    && task.interval == (if op.interval <= 15_000_000 then 15_000_000 else op.interval)
    && task.due == op.time + task.interval
  }

  lemma {:induction false} PerformedNext<C>(v: Tables<C>, ops: seq<Op<C>>)
    requires BelowNext(v)
    ensures BelowNext(PerformAll(v, ops)) && PerformAll(v, ops).nextId == v.nextId + Adds(ops)
  {
    if ops != [] {
      PerformedNext(v, ops[..|ops| - 1]);
    }
  }

  /** The task that operation `i` adds is there afterwards exactly if no later operation removes it. */
  lemma {:induction false} PerformedNew<C>(v: Tables<C>, ops: seq<Op<C>>, i: nat, id: TaskId)
    requires BelowNext(v) && AddsTask(v.nextId, ops, i, id)
    ensures var t := PerformAll(v, ops);
      && (id in t.tasks <==> Op<C>.RemoveTask(id) !in ops[i + 1..])
      && (id in t.tasks ==> IsBuiltFrom(t.tasks[id], ops[i], id))
  {
    var front, last := ops[..|ops| - 1], ops[|ops| - 1];
    PerformedNext(v, front);
    assert ops == front + [last];
    if i < |ops| - 1 {
      assert front[..i] == ops[..i];
      PerformedNew(v, front, i, id);
      AddsLess(front, i);
      assert ops[i + 1..] == front[i + 1..] + [last];
    } else {
      assert ops[..i] == front && ops[i + 1..] == [];
    }
  }

  lemma {:induction false} AddsLess<C>(ops: seq<Op<C>>, i: nat)
    requires i < |ops| && ops[i].AddTask?
    ensures Adds(ops[..i]) < Adds(ops)
  {
    var front := ops[..|ops| - 1];
    if i < |ops| - 1 {
      assert front[..i] == ops[..i];
      AddsLess(front, i);
    } else {
      assert ops[..i] == front;
    }
  }

  /** No other task is new. */
  lemma {:induction false} PerformedOnlyAdded<C>(v: Tables<C>, ops: seq<Op<C>>, id: TaskId) returns (i: nat)
    requires BelowNext(v) && id >= v.nextId && id in PerformAll(v, ops).tasks
    ensures AddsTask(v.nextId, ops, i, id)
  {
    var front := ops[..|ops| - 1];
    PerformedNext(v, front);
    if id in PerformAll(v, front).tasks {
      i := PerformedOnlyAdded(v, front, id);
      assert front[..i] == ops[..i];
    } else {
      i := |ops| - 1;
    }
  }

  lemma {:induction false} PerformAllConcat<C>(v: Tables<C>, ops: seq<Op<C>>, more: seq<Op<C>>)
    ensures PerformAll(v, ops + more) == PerformAll(PerformAll(v, ops), more)
  {
    if more == [] {
      assert ops + more == ops;
    } else {
      assert (ops + more)[..|ops + more| - 1] == ops + more[..|more| - 1];
      PerformAllConcat(v, ops, more[..|more| - 1]);
    }
  }

  lemma {:induction false} RanIsFlat<C>(v: Tables<C>, n: nat, script: Script<Op<C>>)
    ensures Ran(v, n, script) == PerformAll(v, Flat(script, n))
  {
    if n > 0 {
      RanIsFlat(v, n - 1, script);
      PerformAllConcat(v, Flat(script, n - 1), script(n - 1));
    }
  }

  /** The callbacks add the task `id`, as it is in the table, and none of them removes it again. */
  ghost predicate IsAdded<C(!new)>(v: Tables<C>, ops: seq<Op<C>>, id: TaskId, tasks: Table<C>) {
    exists i: nat :: AddsTask(v.nextId, ops, i, id) && Op<C>.RemoveTask(id) !in ops[i + 1..]
      && id in tasks && IsBuiltFrom(tasks[id], ops[i], id)
  }

  /** A task from before the turn is there after it exactly if it was no due one-shot and no callback removed it, and
      then it is due one interval after the scan if it was due, and otherwise as before.  A task that a callback added
      is there after it exactly if no callback removed it again: the erasure leaves it alone. */
  lemma TurnOutcome<C(!new)>(v: Tables<C>, now: Time, b: Batch<C>, script: Script<Op<C>>, id: TaskId)
    requires BelowNext(v) && IsScan(v.tasks, now, b)
    ensures var t := Processed(v, now, b, script).tasks;
      if id < v.nextId then
        && (id in t <==>
              && id in v.tasks && !(v.tasks[id].due <= now && v.tasks[id].once)
              && NoneDoes(script, |b.callbacks|, Op<C>.RemoveTask(id)))
        && (id in t ==>
              var task := v.tasks[id];
              t[id] == if task.due <= now then task.(due := now + task.interval) else task)
      else
        id in t <==> IsAdded(v, Flat(script, |b.callbacks|), id, t)
  {
    var rearmed := v.(tasks := RearmAll(v.tasks, now));
    if id < v.nextId {
      RanTask(rearmed, |b.callbacks|, script, id);
      assert id in b.finished <==> id in FinishedIds(v.tasks, now);
    } else {
      var ops := Flat(script, |b.callbacks|);
      RanIsFlat(rearmed, |b.callbacks|, script);
      assert id !in v.tasks && id !in b.finished;
      if id in Processed(v, now, b, script).tasks {
        var i := PerformedOnlyAdded(rearmed, ops, id);
        PerformedNew(rearmed, ops, i, id);
      }
    }
  }

  /** The invariant of the scan's loop, when the tasks in `remaining` are still to be visited. */
  ghost predicate PartlyScanned<C>(before: Table<C>, now: Time, remaining: set<TaskId>, tasks: Table<C>, b: Batch<C>) {
    && tasks.Keys == before.Keys
    && (forall id :: id in tasks ==> tasks[id] == if id in remaining then before[id] else Rearmed(before[id], now))
    && Lists(b.fired, DueIds(before, now) - remaining)
    && |b.callbacks| == |b.fired|
    && (forall i :: 0 <= i < |b.fired| ==> b.fired[i] in before && b.callbacks[i] == before[b.fired[i]].callback)
    && Lists(b.finished, FinishedIds(before, now) - remaining)
    && IsWakeTime(before, now, before.Keys - FinishedIds(before, now) - remaining, b.wake)
  }

  /** What one visit does to the batch. */
  function Visited<C>(task: Task<C>, now: Time, b: Batch<C>): Batch<C> {
    if now >= task.due then
      var b1 := b.(callbacks := b.callbacks + [task.callback], fired := b.fired + [task.id]);
      if task.once then b1.(finished := b1.finished + [task.id]) else b1.(wake := Least(b1.wake, now + task.interval))
    else
      b.(wake := Least(b.wake, task.due))
  }

  function Least(x: Time, y: Time): Time {
    if y < x then y else x
  }

  lemma ScanBegins<C>(tasks: Table<C>, now: Time)
    ensures PartlyScanned(tasks, now, tasks.Keys, tasks, Batch([], [], [], TIME_MAX))
  {
  }

  lemma ScanEnds<C>(before: Table<C>, now: Time, tasks: Table<C>, b: Batch<C>)
    requires PartlyScanned(before, now, {}, tasks, b)
    ensures IsScan(before, now, b) && tasks == RearmAll(before, now)
  {
    assert DueIds(before, now) - {} == DueIds(before, now);
    assert FinishedIds(before, now) - {} == FinishedIds(before, now);
    assert before.Keys - FinishedIds(before, now) - {} == before.Keys - FinishedIds(before, now);
  }

  lemma VisitOne<C>(before: Table<C>, now: Time, remaining: set<TaskId>, id: TaskId, tasks: Table<C>, b: Batch<C>)
    requires id in remaining && remaining <= before.Keys && before[id].id == id
    requires PartlyScanned(before, now, remaining, tasks, b)
    ensures PartlyScanned(before, now, remaining - {id}, tasks[id := Rearmed(tasks[id], now)],
                          Visited(tasks[id], now, b))
  {
    ListOneMore(b.fired, DueIds(before, now), remaining, id);
    ListOneMore(b.finished, FinishedIds(before, now), remaining, id);
    KeepOneMore(before, now, remaining, id, b.wake);
  }

  lemma ListOneMore(s: seq<TaskId>, ids: set<TaskId>, remaining: set<TaskId>, id: TaskId)
    requires id in remaining && Lists(s, ids - remaining)
    ensures Lists(if id in ids then s + [id] else s, ids - (remaining - {id}))
  {
    assert ids - (remaining - {id}) == if id in ids then ids - remaining + {id} else ids - remaining;
  }

  lemma KeepOneMore<C>(tasks: Table<C>, now: Time, remaining: set<TaskId>, id: TaskId, wake: Time)
    requires id in remaining && remaining <= tasks.Keys
    requires IsWakeTime(tasks, now, tasks.Keys - FinishedIds(tasks, now) - remaining, wake)
    ensures var due := Rearmed(tasks[id], now).due;
      IsWakeTime(tasks, now, tasks.Keys - FinishedIds(tasks, now) - (remaining - {id}),
                 if id in FinishedIds(tasks, now) then wake else Least(wake, due))
  {
    var kept := tasks.Keys - FinishedIds(tasks, now) - remaining;
    var more := tasks.Keys - FinishedIds(tasks, now) - (remaining - {id});
    if id in FinishedIds(tasks, now) {
      assert more == kept;
    } else {
      assert more == kept + {id};
      if wake != TIME_MAX && Least(wake, Rearmed(tasks[id], now).due) == wake {
        var k :| k in kept && wake == Rearmed(tasks[k], now).due;
        assert k in more;
      } else {
        assert id in more;
      }
    }
  }

  /** What a scan makes of one task, and of the wake time. */
  lemma ScanExactly<C>(tasks: Table<C>, now: Time, b: Batch<C>, id: TaskId)
    requires IsScan(tasks, now, b)
    ensures id in b.fired <==> id in tasks && tasks[id].due <= now
    ensures id in b.finished <==> id in tasks && tasks[id].due <= now && tasks[id].once
    ensures forall i :: 0 <= i < |b.fired| && b.fired[i] == id ==> b.callbacks[i] == tasks[id].callback
    ensures var after := RearmAll(tasks, now);
      && (id in after <==> id in tasks)
      && (id in tasks ==>
            after[id] == if tasks[id].due <= now then tasks[id].(due := now + tasks[id].interval) else tasks[id])
      && (id in tasks && id !in b.finished ==> b.wake <= after[id].due)
      && (b.wake < 0x7FFF_FFFF_FFFF_FFFF ==> exists k :: k in tasks && k !in b.finished && b.wake == after[k].due)
    ensures b.wake <= 0x7FFF_FFFF_FFFF_FFFF
  {
    assert id in b.fired <==> id in DueIds(tasks, now);
    assert id in b.finished <==> id in FinishedIds(tasks, now);
    if b.wake < 0x7FFF_FFFF_FFFF_FFFF {
      var k :| k in tasks.Keys - FinishedIds(tasks, now) && b.wake == Rearmed(tasks[k], now).due;
      assert k !in b.finished;
    }
  }

  /** A scan leaves nothing due: every task that stays is due strictly after the scan, and so is the wake time. */
  lemma ScanLeavesNothingDue<C>(tasks: Table<C>, now: Time, b: Batch<C>)
    requires WellFormed(tasks) && IsScan(tasks, now, b) && now < TIME_MAX
    ensures now < b.wake
    ensures DueIds(RearmAll(tasks, now), now) == {}
  {
    if b.wake != TIME_MAX {
      var id :| id in tasks && b.wake == Rearmed(tasks[id], now).due;
    }
  }

  /** Two scans of the same table at the same time differ by the order of the lists alone. */
  lemma ScanIsOrderIndependent<C>(tasks: Table<C>, now: Time, b: Batch<C>, c: Batch<C>)
    requires IsScan(tasks, now, b) && IsScan(tasks, now, c)
    ensures b.wake == c.wake
    ensures multiset(b.fired) == multiset(c.fired) && multiset(b.finished) == multiset(c.finished)
  {
    ListsOnce(b.fired, c.fired, DueIds(tasks, now));
    ListsOnce(b.finished, c.finished, FinishedIds(tasks, now));
  }

  lemma ListsOnce(s: seq<TaskId>, t: seq<TaskId>, ids: set<TaskId>)
    requires Lists(s, ids) && Lists(t, ids)
    ensures multiset(s) == multiset(t)
  {
    forall id: TaskId ensures multiset(s)[id] == multiset(t)[id] {
      Multiplicity(s, id);
      Multiplicity(t, id);
    }
  }

  lemma {:induction false} Multiplicity(s: seq<TaskId>, id: TaskId)
    requires forall i, j :: 0 <= i < j < |s| ==> s[i] != s[j]
    ensures multiset(s)[id] == if id in s then 1 else 0
  {
    if s != [] {
      assert s == [s[0]] + s[1..];
      Multiplicity(s[1..], id);
    }
  }
}
