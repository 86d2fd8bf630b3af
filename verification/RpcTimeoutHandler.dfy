/**
 The handler that maps requests to scheduler tasks.  `C` stands for the type of a timeout callback.
 */
module RpcTimeoutHandler {
  import opened Wrappers
  import opened Scheduling

  type RequestId = nat

  /** The timeout table and the scheduler behind it. */
  datatype Timer<C> = Timer(timeouts: map<RequestId, TaskId>, tasks: Table<C>, nextTask: TaskId)

  function Scheduled<C>(v: Timer<C>, request: RequestId, duration: int, callback: C, now: Time): Timer<C> {
    Timer(v.timeouts[request := v.nextTask],
          v.tasks[v.nextTask := NewTask(v.nextTask, duration, callback, true, now)],
          v.nextTask + 1)
  }

  function Cancelled<C>(v: Timer<C>, request: RequestId): Timer<C> {
    if request in v.timeouts then
      v.(timeouts := v.timeouts - {request}, tasks := v.tasks - {v.timeouts[request]})
    else v
  }

  /** The request is mapped to a new one-shot that is due when the duration, or 15 ms if it is less, is over; nothing
      else has changed. */
  ghost predicate HasScheduled<C>(v: Timer<C>, w: Timer<C>, request: RequestId, duration: int, callback: C, now: Time) {
    var task := v.nextTask;
    && w.timeouts == v.timeouts[request := task] && w.nextTask == task + 1
    && w.tasks.Keys == v.tasks.Keys + {task}
    && (forall id :: id in v.tasks && id != task ==> w.tasks[id] == v.tasks[id])
    && w.tasks[task].id == task && w.tasks[task].once && w.tasks[task].callback == callback
    && w.tasks[task].interval == (if duration <= 15_000_000 then 15_000_000 else duration)
    && w.tasks[task].due == now + w.tasks[task].interval
  }

  /** The request has no timeout any more, and the task it had is gone; nothing else has changed. */
  ghost predicate HasCancelled<C>(v: Timer<C>, w: Timer<C>, request: RequestId) {
    && w.timeouts.Keys == v.timeouts.Keys - {request} && w.nextTask == v.nextTask
    && (forall r :: r in w.timeouts ==> w.timeouts[r] == v.timeouts[r])
    && (forall id :: id in w.tasks <==> id in v.tasks && !(request in v.timeouts && id == v.timeouts[request]))
    && (forall id :: id in w.tasks ==> w.tasks[id] == v.tasks[id])
  }

  /** Cancelling undoes the scheduling, apart from the task id it used up, if and only if the request had no timeout:
      otherwise the task it had stays with the scheduler, and no entry leads to it any more. */
  lemma CancelUndoesSchedule<C>(v: Timer<C>, request: RequestId, duration: int, callback: C, now: Time)
    requires v.nextTask !in v.tasks
    ensures var w := Cancelled(Scheduled(v, request, duration, callback, now), request);
      && w.tasks == v.tasks
      && (w.timeouts == v.timeouts <==> request !in v.timeouts)
      && request !in w.timeouts
  {
    var s := Scheduled(v, request, duration, callback, now);
    assert s.tasks - {v.nextTask} == v.tasks;
    assert s.timeouts - {request} == v.timeouts - {request};
    if request !in v.timeouts {
      assert v.timeouts - {request} == v.timeouts;
    }
  }

  class SchedulerRpcTimeoutHandler<C> {
    const scheduler: SchedulingSystem<C>
    var timeouts: map<RequestId, TaskId>

    ghost function State(): Timer<C>
      reads this, scheduler
    {
      Timer(timeouts, scheduler.tasks, scheduler.nextId)
    }

    constructor (scheduler: SchedulingSystem<C>)
      ensures this.scheduler == scheduler && timeouts == map[]
    {
      this.scheduler, timeouts := scheduler, map[];
    }

    /** An empty callback schedules nothing. */
    method ScheduleTimeout(request: RequestId, duration: int, callback: Option<C>, now: Time)
      requires scheduler.Valid()
      modifies this, scheduler
      ensures scheduler.Valid()
      ensures callback.None? ==> State() == old(State())
      ensures callback.Some? ==> State() == Scheduled(old(State()), request, duration, callback.value, now)
      ensures callback.Some? ==> HasScheduled(old(State()), State(), request, duration, callback.value, now)
    {
      if callback.None? {
        return;
      }
      var handle := scheduler.ScheduleAfter(duration, callback.value, now);
      timeouts := timeouts[request := handle];
    }

    method CancelTimeout(request: RequestId)
      requires scheduler.Valid()
      modifies this, scheduler
      ensures scheduler.Valid()
      ensures State() == Cancelled(old(State()), request)
      ensures HasCancelled(old(State()), State(), request)
    {
      if request !in timeouts {
        return;
      }
      var task := timeouts[request];
      timeouts := timeouts - {request};
      scheduler.RemoveTask(task);
    }
  }
}
