/**
 The RPC system, its message handler and its timeout handler as the program runs them on one thread at a time.  Every
 locked region is also taken as a step of `RpcTables`, so that what holds of the transition system holds here.
 */
module RpcSystem {
  import opened Wrappers
  import R = RpcTables
  import opened RpcTimeoutHandler
  import Scheduling

  // ---- Steps of the transition system ----

  ghost predicate StepAt(ss: seq<R.State>, steps: seq<R.Action>, i: nat)
    requires i < |steps| < |ss|
  {
    R.Enabled(ss[i], steps[i]) && ss[i + 1] == R.Apply(ss[i], steps[i])
  }

  ghost predicate IsPath(ss: seq<R.State>, steps: seq<R.Action>) {
    |ss| == |steps| + 1 && ss[0] == R.INITIAL && forall i :: 0 <= i < |steps| ==> StepAt(ss, steps, i)
  }

  /** The steps, each enabled when it is taken, lead from the initial state to `s`. */
  ghost predicate Reaches(steps: seq<R.Action>, s: R.State) {
    exists ss :: IsPath(ss, steps) && s == ss[|steps|]
  }

  lemma OneMore(steps: seq<R.Action>, s: R.State, a: R.Action)
    requires Reaches(steps, s) && R.Enabled(s, a)
    ensures Reaches(steps + [a], R.Apply(s, a))
  {
    var ss :| IsPath(ss, steps) && s == ss[|steps|];
    var more := ss + [R.Apply(s, a)];
    forall i | 0 <= i < |steps| + 1 ensures StepAt(more, steps + [a], i) {
      assert i < |steps| ==> StepAt(ss, steps, i);
    }
    assert IsPath(more, steps + [a]);
  }

  lemma ReachedInvariants(steps: seq<R.Action>, s: R.State)
    requires Reaches(steps, s)
    ensures R.PlaceInv(s) && R.SlotInv(s) && R.TimeoutInv(s) && (R.CalledOnce(s) ==> R.AgreeInv(s))
  {
    var ss :| IsPath(ss, steps) && s == ss[|steps|];
    PathInvariants(ss, steps, |steps|);
  }

  lemma {:induction false} PathInvariants(ss: seq<R.State>, steps: seq<R.Action>, n: nat)
    requires IsPath(ss, steps) && n < |ss|
    ensures R.PlaceInv(ss[n]) && R.SlotInv(ss[n]) && R.TimeoutInv(ss[n]) && (R.CalledOnce(ss[n]) ==> R.AgreeInv(ss[n]))
  {
    if n > 0 {
      var s, a := ss[n - 1], steps[n - 1];
      assert StepAt(ss, steps, n - 1);
      PathInvariants(ss, steps, n - 1);
      R.PlaceInvKept(s, a);
      R.SlotInvKept(s, a);
      R.TimeoutInvKept(s, a);
      if R.CalledOnce(ss[n]) {
        R.SpecsStay(s, a);
        R.CalledOnceKept(s, ss[n]);
        R.AgreeInvKept(s, a);
      }
    }
  }

  /** The slots of every message type; each type has an id counter of its own. */
  class ObservableMessageHandler {
    var slots: map<R.SlotId, R.Slot>
    var counters: map<R.MessageType, nat>

    constructor ()
      ensures slots == map[] && counters == map[]
    {
      slots, counters := map[], map[];
    }

    method Subscribe(message: R.MessageType, slot: R.Slot) returns (id: R.SlotId)
      modifies this
      ensures id == R.SlotId(message, R.NextNumber(old(counters), message))
      ensures counters == old(counters)[message := id.number + 1] && slots == old(slots)[id := slot]
    {
      id := R.SlotId(message, if message in counters then counters[message] else 0);
      counters := counters[message := id.number + 1];
      slots := slots[id := slot];
    }

    /** What the destructors of the two handles of a pending call do. */
    method Release(success: R.SlotId, error: R.SlotId)
      modifies this`slots
      ensures slots == R.Freed(old(slots), success, error)
    {
      slots := slots - {success};
      slots := slots - {error};
    }
  }

  /** What a client of the system can tell of its state. */
  datatype View = View(
    calls: map<R.RequestId, R.PendingCall>,
    slots: map<R.SlotId, R.Slot>,
    trace: seq<R.Completion>,
    timer: Timer<R.Closure>)

  function HandleOf(entry: R.PendingCall, kind: R.Kind): R.SlotId {
    if kind == R.Success then entry.success else entry.error
  }

  /** The entry and both its slots go, the timeout is cancelled, and one callback has run. */
  function Completed(v: View, request: R.RequestId, kind: R.Kind, callback: bool): View
    requires request in v.calls
  {
    var entry := v.calls[request];
    View(v.calls - {request}, R.Freed(v.slots, entry.success, entry.error),
         v.trace + [R.Completion(request, entry.call, kind, callback)], Cancelled(v.timer, request))
  }

  /** The request is pending on the connection, and this message type is its response type, or its error type. */
  predicate Awaits(v: View, request: R.RequestId, kind: R.Kind, message: R.MessageType, conn: R.ConnectionId) {
    kind != R.Timeout && request in v.calls &&
    var x := HandleOf(v.calls[request], kind);
    x in v.slots && x.message == message && v.slots[x].conn == conn
  }

  class RpcSystem {
    var nextId: R.RequestId
    var calls: map<R.RequestId, R.PendingCall>
    const messageHandler: ObservableMessageHandler
    const timeoutHandler: SchedulerRpcTimeoutHandler<R.Closure>
    /** What has been handed to the TCP system, and the callbacks that completed a call. */
    var sent: seq<(R.ConnectionId, R.RequestId)>
    var trace: seq<R.Completion>
    /** Numbers the calls. */
    var nextCall: R.CallId
    /** The steps taken so far, and the state they lead to. */
    ghost var steps: seq<R.Action>
    ghost var model: R.State

    /** The fields are those of the state the steps lead to. */
    ghost predicate Agrees()
      reads this, messageHandler, timeoutHandler, timeoutHandler.scheduler
    {
      && timeoutHandler.scheduler.Valid()
      && Reaches(steps, model)
      && nextId == model.nextRequest && calls == model.calls && trace == model.trace
      && messageHandler.slots == model.slots && messageHandler.counters == model.counters
      && timeoutHandler.timeouts == model.timeouts
      && (forall c :: c in model.specs ==> c < nextCall)
      && (forall task :: task in model.owner ==> task < timeoutHandler.scheduler.nextId)
    }

    /** ... and no call and no handler is under way. */
    ghost predicate Valid()
      reads this, messageHandler, timeoutHandler, timeoutHandler.scheduler
    {
      Agrees() && model.callers == map[] && model.handlers == map[] && model.overtaken == {}
    }

    ghost function Now(): View
      reads this, messageHandler, timeoutHandler, timeoutHandler.scheduler
    {
      View(calls, messageHandler.slots, trace, timeoutHandler.State())
    }

    constructor (scheduler: Scheduling.SchedulingSystem<R.Closure>)
      requires scheduler.Valid()
      ensures Valid() && timeoutHandler.scheduler == scheduler
      ensures nextId == 1 && calls == map[] && messageHandler.slots == map[] && timeoutHandler.timeouts == map[]
      ensures sent == [] && trace == []
    {
      messageHandler := new ObservableMessageHandler();
      timeoutHandler := new SchedulerRpcTimeoutHandler(scheduler);
      nextId, nextCall, calls, sent, trace := 1, 0, map[], [], [];
      steps, model := [], R.INITIAL;
      assert IsPath([R.INITIAL], []);
    }

    ghost method Step(a: R.Action)
      requires Reaches(steps, model) && R.Enabled(model, a)
      modifies this`steps, this`model
      ensures Reaches(steps, model) && model == R.Apply(old(model), a)
      ensures steps == old(steps) + [a]
    {
      OneMore(steps, model, a);
      steps, model := steps + [a], R.Apply(model, a);
    }

    method Prepare() returns (request: R.RequestId)
      requires Agrees()
      modifies this
      ensures Agrees() && (old(Valid()) ==> Valid())
      ensures model == old(model).(nextRequest := nextId)
      ensures request == old(nextId) && nextId == old(nextId) + 1
      ensures calls == old(calls) && sent == old(sent) && trace == old(trace) && nextCall == old(nextCall)
      ensures steps == old(steps) + [R.Prepare]
    {
      request := nextId;
      nextId := nextId + 1;
      Step(R.Prepare);
    }

    /** The call is at this stage, whatever else is under way. */
    ghost predicate During(call: R.CallId, spec: R.Spec, stage: R.Stage)
      reads this, messageHandler, timeoutHandler, timeoutHandler.scheduler
    {
      && Agrees() && call in model.specs && model.specs[call] == spec
      && call in model.callers && model.callers[call] == stage
    }

    /** The parts of `Call`, in order. */
    method Begin(spec: R.Spec) returns (call: R.CallId)
      requires Agrees() && spec.request < nextId
      modifies this`nextCall, this`steps, this`model
      ensures call == old(nextCall) && nextCall == call + 1 && During(call, spec, R.Starting)
      ensures OnlyCaller(old(model), model, call) && call !in old(model.callers)
      ensures calls == old(calls) && messageHandler.slots == old(messageHandler.slots)
    {
      ReachedInvariants(steps, model);
      assert R.StageOk(model, nextCall);
      call := nextCall;
      nextCall := nextCall + 1;
      Step(R.Call(call, spec));
    }

    method SubscribeSuccess(call: R.CallId, spec: R.Spec) returns (success: R.SlotId)
      requires During(call, spec, R.Starting)
      modifies this`steps, this`model, messageHandler
      ensures During(call, spec, R.Half(success)) && OnlyCaller(old(model), model, call)
      ensures messageHandler.slots == old(messageHandler.slots)[success := R.SlotOf(spec, call, R.Success)]
      ensures success == R.SlotId(spec.response, R.NextNumber(old(messageHandler.counters), spec.response))
      ensures success !in old(messageHandler.slots)
    {
      NewSlot(steps, model, spec.response);
      success := messageHandler.Subscribe(spec.response, R.SlotOf(spec, call, R.Success));
      Step(R.SubscribeSuccess(call));
    }

    method SubscribeError(call: R.CallId, spec: R.Spec, success: R.SlotId) returns (error: R.SlotId)
      requires During(call, spec, R.Half(success))
      modifies this`steps, this`model, messageHandler
      ensures During(call, spec, R.Full(success, error)) && OnlyCaller(old(model), model, call)
      ensures messageHandler.slots == old(messageHandler.slots)[error := R.SlotOf(spec, call, R.Error)]
      ensures error == R.SlotId(spec.error, R.NextNumber(old(messageHandler.counters), spec.error))
      ensures error !in old(messageHandler.slots)
    {
      NewSlot(steps, model, spec.error);
      error := messageHandler.Subscribe(spec.error, R.SlotOf(spec, call, R.Error));
      Step(R.SubscribeError(call));
    }

    method TryEmplace(call: R.CallId, spec: R.Spec, success: R.SlotId, error: R.SlotId)
      requires During(call, spec, R.Full(success, error))
      modifies this`calls, this`steps, this`model, messageHandler`slots
      ensures During(call, spec, R.AfterInsert(spec)) && OnlyCaller(old(model), model, call)
      ensures spec.request !in old(calls) ==>
        && calls == old(calls)[spec.request := R.PendingCall(success, error, call)]
        && messageHandler.slots == old(messageHandler.slots)
      ensures spec.request in old(calls) ==>
        calls == old(calls) && messageHandler.slots == R.Freed(old(messageHandler.slots), success, error)
    {
      if spec.request !in calls {
        calls := calls[spec.request := R.PendingCall(success, error, call)];
        Step(R.Insert(call));
      } else {
        messageHandler.Release(success, error);
        Step(R.Reject(call));
      }
    }

    method Schedule(call: R.CallId, spec: R.Spec, now: Scheduling.Time)
      requires During(call, spec, R.Arming) && spec.timeout.Some?
      modifies this`steps, this`model, timeoutHandler, timeoutHandler.scheduler
      ensures During(call, spec, R.Sending) && OnlyCaller(old(model), model, call)
      ensures timeoutHandler.State() ==
        Scheduled(old(timeoutHandler.State()), spec.request, spec.timeout.value, R.ClosureOf(spec, call), now)
    {
      ghost var task := timeoutHandler.scheduler.nextId;
      timeoutHandler.ScheduleTimeout(spec.request, spec.timeout.value, Some(R.ClosureOf(spec, call)), now);
      Step(R.Arm(call, task));
      Step(R.Store(call));
      Step(R.Record(call));
    }

    method Send(call: R.CallId, spec: R.Spec)
      requires During(call, spec, R.Sending)
      modifies this`sent, this`steps, this`model
      ensures Agrees() && OnlyCaller(old(model), model, call) && call !in model.callers
      ensures sent == old(sent) + [(spec.conn, spec.request)]
    {
      sent := sent + [(spec.conn, spec.request)];
      Step(R.Send(call));
    }

    /** Both subscriptions. */
    method Subscribe(spec: R.Spec) returns (call: R.CallId, success: R.SlotId, error: R.SlotId)
      requires Agrees() && spec.request < nextId
      modifies this`nextCall, this`steps, this`model, messageHandler
      ensures call == old(nextCall) && nextCall == call + 1 && During(call, spec, R.Full(success, error))
      ensures OnlyCaller(old(model), model, call) && call !in old(model.callers)
      ensures IsNewEntry(old(messageHandler.slots), messageHandler.slots, R.PendingCall(success, error, call), spec,
                         call)
    {
      call := Begin(spec);
      success := SubscribeSuccess(call, spec);
      error := SubscribeError(call, spec, success);
    }

    /** A request that is pending already keeps its entry, and the new subscriptions go again. */
    method Enter(spec: R.Spec) returns (call: R.CallId)
      requires Agrees() && spec.request < nextId
      modifies this`nextCall, this`calls, this`steps, this`model, messageHandler
      ensures call == old(nextCall) && nextCall == call + 1 && During(call, spec, R.AfterInsert(spec))
      ensures OnlyCaller(old(model), model, call) && call !in old(model.callers)
      ensures Entered(old(calls), calls, old(messageHandler.slots), messageHandler.slots, spec, call)
    {
      var success, error;
      call, success, error := Subscribe(spec);
      ReleaseUndoes(old(messageHandler.slots), messageHandler.slots, R.PendingCall(success, error, call), spec, call);
      TryEmplace(call, spec, success, error);
    }

    /** The rest of the call. */
    method ScheduleAndSend(call: R.CallId, spec: R.Spec, now: Scheduling.Time)
      requires During(call, spec, R.AfterInsert(spec))
      modifies this`sent, this`steps, this`model, timeoutHandler, timeoutHandler.scheduler
      ensures Agrees() && OnlyCaller(old(model), model, call) && call !in model.callers
      ensures sent == old(sent) + [(spec.conn, spec.request)]
      ensures timeoutHandler.State() ==
        if spec.timeout.Some? then
          Scheduled(old(timeoutHandler.State()), spec.request, spec.timeout.value, R.ClosureOf(spec, call), now)
        else old(timeoutHandler.State())
    {
      if spec.timeout.Some? {
        Schedule(call, spec, now);
      }
      Send(call, spec);
    }

    /** The timeout is scheduled, and the message is sent, whether the request has got the entry or not.  Other threads
        may be anywhere in a `Call` or in a handler. */
    method Call(spec: R.Spec, now: Scheduling.Time)
      requires Agrees() && spec.request < nextId
      modifies this, messageHandler, timeoutHandler, timeoutHandler.scheduler
      ensures Agrees() && (old(Valid()) ==> Valid())
      ensures model.callers == old(model.callers) && model.handlers == old(model.handlers)
      ensures model.overtaken == old(model.overtaken)
      ensures nextId == old(nextId) && trace == old(trace) && nextCall == old(nextCall) + 1
      ensures sent == old(sent) + [(spec.conn, spec.request)]
      ensures Entered(old(calls), calls, old(messageHandler.slots), messageHandler.slots, spec, old(nextCall))
      ensures timeoutHandler.State() ==
        if spec.timeout.Some? then
          Scheduled(old(timeoutHandler.State()), spec.request, spec.timeout.value,
                    R.ClosureOf(spec, old(nextCall)), now)
        else old(timeoutHandler.State())
      ensures spec.timeout.Some? ==>
        HasScheduled(old(timeoutHandler.State()), timeoutHandler.State(), spec.request, spec.timeout.value,
                     R.RpcTimeout(spec.request, old(nextCall), spec.onTimeout), now)
    {
      var call := Enter(spec);
      ghost var entered := model;
      ScheduleAndSend(call, spec, now);
      CallerGone(old(model), entered, model, call);
    }

    /** Handler `g` is at this point, whatever else is under way. */
    ghost predicate Handling(g: R.HandlerId, h: R.Handler)
      reads this, messageHandler, timeoutHandler, timeoutHandler.scheduler
    {
      Agrees() && g in model.handlers && model.handlers[g] == h
    }

    /** The parts of `HandleCallback`, in order. */
    method Claim(request: R.RequestId, ghost g: R.HandlerId, ghost h: R.Handler)
      requires Handling(g, h) && h.request == request && h.at.Claiming? && request in calls
      modifies this`calls, this`steps, this`model, messageHandler`slots
      ensures Handling(g, h.(at := R.Cancelling(old(calls)[request].call)))
      ensures OnlyHandler(old(model), model, g)
      ensures calls == old(calls) - {request}
      ensures var entry := old(calls)[request];
        messageHandler.slots == R.Freed(old(messageHandler.slots), entry.success, entry.error)
    {
      var entry := calls[request];
      calls := calls - {request};
      messageHandler.Release(entry.success, entry.error);
      Step(R.Claim(g));
    }

    method CancelTimeout(request: R.RequestId, ghost g: R.HandlerId, ghost h: R.Handler)
      requires Handling(g, h) && h.request == request && h.at.Cancelling?
      modifies this`steps, this`model, timeoutHandler, timeoutHandler.scheduler
      ensures Handling(g, h.(at := R.Invoking(h.at.call)))
      ensures OnlyHandler(old(model), model, g)
      ensures timeoutHandler.State() == Cancelled(old(timeoutHandler.State()), request)
    {
      CancelSteps(request, g, h);
      timeoutHandler.CancelTimeout(request);
    }

    ghost method CancelSteps(request: R.RequestId, g: R.HandlerId, h: R.Handler)
      requires Reaches(steps, model) && g in model.handlers && model.handlers[g] == h && h.request == request
      requires h.at.Cancelling?
      modifies this`steps, this`model
      ensures Reaches(steps, model) && OnlyHandler(old(model), model, g)
      ensures model == old(model).(timeouts := old(model).timeouts - {request}, overtaken := model.overtaken,
                                   handlers := old(model).handlers[g := h.(at := R.Invoking(h.at.call))])
    {
      if request in model.timeouts {
        CancelStep(request, g, h);
        Step(R.Unschedule(g));
      } else {
        Step(R.CancelNothing(g));
      }
    }

    ghost method CancelStep(request: R.RequestId, g: R.HandlerId, h: R.Handler)
      requires Reaches(steps, model) && g in model.handlers && model.handlers[g] == h && h.request == request
      requires h.at.Cancelling? && request in model.timeouts
      modifies this`steps, this`model
      ensures Reaches(steps, model)
      ensures model == old(model).(
        timeouts := old(model).timeouts - {request},
        handlers := old(model).handlers[g := h.(at := R.Unscheduling(h.at.call, old(model).timeouts[request]))])
    {
      Step(R.Cancel(g));
    }

    method Invoke(request: R.RequestId, kind: R.Kind, callback: bool, call: R.CallId, ghost g: R.HandlerId,
                  ghost h: R.Handler)
      requires Handling(g, h) && h.request == request && h.kind == kind && h.callback == callback
      requires h.at == R.Invoking(call)
      modifies this`trace, this`steps, this`model
      ensures Agrees() && trace == old(trace) + [R.Completion(request, call, kind, callback)]
      ensures OnlyHandler(old(model), model, g) && g !in model.handlers
    {
      trace := trace + [R.Completion(request, call, kind, callback)];
      Step(R.Invoke(g));
    }

    method HandleCallback(request: R.RequestId, kind: R.Kind, callback: bool, ghost g: R.HandlerId, ghost h: R.Handler)
      requires Handling(g, h) && h.request == request && h.kind == kind && h.callback == callback && h.at.Claiming?
      modifies this`calls, this`trace, this`steps, this`model, messageHandler`slots
      modifies timeoutHandler, timeoutHandler.scheduler
      ensures Agrees() && OnlyHandler(old(model), model, g) && g !in model.handlers
      ensures Now() == if request in old(calls) then Completed(old(Now()), request, kind, callback) else old(Now())
    {
      if request !in calls {
        Step(R.Miss(g));
        return;
      }
      var call := calls[request].call;
      Claim(request, g, h);
      CancelTimeout(request, g, h.(at := R.Cancelling(call)));
      Invoke(request, kind, callback, call, g, h.(at := R.Invoking(call)));
    }

    /** The closure `Call` subscribed, run for a message.  It ends at once unless the message answers its request. */
    method RunSlot(x: R.SlotId, conn: R.ConnectionId, request: R.RequestId)
      requires Agrees() && x in messageHandler.slots
      modifies this`calls, this`trace, this`steps, this`model, messageHandler`slots
      modifies timeoutHandler, timeoutHandler.scheduler
      ensures Agrees() && SameThreads(old(model), model)
      ensures var slot := old(messageHandler.slots)[x];
        Now() == if slot.conn == conn && slot.request == request && request in old(calls)
                 then Completed(old(Now()), request, slot.kind, slot.callback) else old(Now())
    {
      var slot := messageHandler.slots[x];
      if conn != slot.conn {
        return;
      }
      if request != slot.request {
        return;
      }
      ghost var g := R.NewHandler(model.handlers.Keys);
      Step(R.Deliver(g, x));
      HandleCallback(request, slot.kind, slot.callback, g,
                     R.Handler(request, slot.kind, slot.callback, false, R.Claiming, slot.call));
      assert model.handlers == model.handlers - {g} == old(model).handlers;
    }

    /** The emission for one message: the ids of the type's slots, collected in any order, and each looked up again
        when it is reached.  Other threads may be anywhere in a `Call` or in a handler. */
    method HandleMessage(message: R.MessageType, conn: R.ConnectionId, request: R.RequestId)
      requires Agrees()
      modifies this`calls, this`trace, this`steps, this`model, messageHandler`slots
      modifies timeoutHandler, timeoutHandler.scheduler
      ensures Agrees() && SameThreads(old(model), model) && (old(Valid()) ==> Valid())
      ensures Routed(old(Now()), Now(), message, conn, request)
      ensures old(R.CalledOnce(model) || model.callers == map[]) ==>
        forall q :: q in old(calls) ==> Answered(old(Now()), Now(), message, conn, request, q)
    {
      ghost var v := Now();
      if R.CalledOnce(model) || model.callers == map[] {
        ViewIsLinked();
      }
      var remaining := set x | x in messageHandler.slots && x.message == message;
      while remaining != {}
        invariant Agrees() && SameThreads(old(model), model)
        invariant Emitted(v, Now(), remaining, message, conn, request)
      {
        var x :| x in remaining;
        EmitOne(v, Now(), remaining, x, message, conn, request);
        remaining := remaining - {x};
        if x in messageHandler.slots {
          RunSlot(x, conn, request);
        }
      }
      forall q | q in v.calls && Linked(v) && TasksApart(v) ensures Answered(v, Now(), message, conn, request, q) {
        RoutedExactly(v, Now(), message, conn, request, q);
      }
    }

    /** The scheduler runs the closure of a timeout, which may have been completed in the meantime. */
    method RunTimeout(closure: R.Closure)
      requires Agrees() && R.NotOnScheduler(model) && closure.RpcTimeout?
      modifies this`calls, this`trace, this`steps, this`model, messageHandler`slots
      modifies timeoutHandler, timeoutHandler.scheduler
      ensures Agrees() && SameThreads(old(model), model) && (old(Valid()) ==> Valid())
      ensures Now() == if closure.request in old(calls)
                       then Completed(old(Now()), closure.request, R.Timeout, closure.callback) else old(Now())
    {
      ghost var g := R.NewHandler(model.handlers.Keys);
      Step(R.RunItem(g, closure));
      HandleCallback(closure.request, R.Timeout, closure.callback, g,
                     R.Handler(closure.request, R.Timeout, closure.callback, true, R.Claiming, closure.call));
      assert model.handlers == model.handlers - {g} == old(model).handlers;
    }

    /** What a step sequence of the transition system keeps holds of the object, whatever was called on it: each call
        has run at most one callback, the slots are two to each pending request, and with one call per request the
        timeout table holds exactly the pending requests that set a timeout. */
    lemma KeepsItsPromises(i: nat, j: nat, r: R.RequestId)
      requires Valid()
      ensures i < j < |trace| ==> trace[i].call != trace[j].call
      ensures i < j < |trace| && R.CalledOnce(model) ==> trace[i].request != trace[j].request
      ensures |messageHandler.slots| == 2 * |calls|
      ensures R.CalledOnce(model) ==> (r in timeoutHandler.timeouts <==> R.IsPendingWithTimeout(model, r))
    {
      ReachedInvariants(steps, model);
      R.SubscriptionConservation(model);
      if i < j < |trace| {
        R.AtMostOneCompletion(model, i, j);
      }
      if R.CalledOnce(model) {
        R.TimeoutTableAgreesExactly(model);
      }
    }

    /** What the invariants say about the view: in every state with one call per request, whatever is under way, and
        in every state in which no call is. */
    lemma ViewIsLinked()
      requires Agrees() && (R.CalledOnce(model) || model.callers == map[])
      ensures Linked(Now()) && TasksApart(Now())
    {
      ReachedInvariants(steps, model);
      LinkedTables(model, Now());
      forall q, r | q in model.timeouts && r in model.timeouts && model.timeouts[q] == model.timeouts[r]
        ensures q == r
      {
        R.TimeoutTableIsInjective(model, q, r);
      }
    }
  }

  /** Nothing but this call has moved. */
  ghost predicate OnlyCaller(s: R.State, t: R.State, c: R.CallId) {
    && t.callers - {c} == s.callers - {c} && t.specs - {c} == s.specs - {c}
    && t.handlers == s.handlers && t.overtaken == s.overtaken
  }

  lemma CallerGone(s: R.State, t: R.State, u: R.State, c: R.CallId)
    requires OnlyCaller(s, t, c) && OnlyCaller(t, u, c) && c !in s.callers && c !in u.callers
    ensures u.callers == s.callers && u.handlers == s.handlers && u.overtaken == s.overtaken
  {
    assert s.callers - {c} == s.callers && u.callers - {c} == u.callers;
  }

  /** Nothing but this handler has moved. */
  ghost predicate OnlyHandler(s: R.State, t: R.State, g: R.HandlerId) {
    && t.handlers - {g} == s.handlers - {g} && t.callers == s.callers && t.specs == s.specs
    && (s.callers == map[] ==> t.overtaken == s.overtaken)
  }

  /** The calls and handlers that are under way are where they were. */
  ghost predicate SameThreads(s: R.State, t: R.State) {
    && t.handlers == s.handlers && t.callers == s.callers && t.specs == s.specs
    && (s.callers == map[] ==> t.overtaken == s.overtaken)
  }

  /** A slot of this message type, for this request on this connection. */
  predicate Matches(v: View, x: R.SlotId, message: R.MessageType, conn: R.ConnectionId, request: R.RequestId) {
    x in v.slots && x.message == message && v.slots[x].conn == conn && v.slots[x].request == request
  }

  ghost predicate CompletedBy(v: View, w: View, x: R.SlotId, message: R.MessageType, conn: R.ConnectionId,
                              request: R.RequestId)
  {
    && Matches(v, x, message, conn, request) && request in v.calls
    && w == Completed(v, request, v.slots[x].kind, v.slots[x].callback)
  }

  /** A message completes its request through one of the slots that match, if there is one and the request is pending,
      and otherwise changes nothing. */
  ghost predicate Routed(v: View, w: View, message: R.MessageType, conn: R.ConnectionId, request: R.RequestId) {
    if request in v.calls && exists x :: Matches(v, x, message, conn, request)
    then exists x :: CompletedBy(v, w, x, message, conn, request)
    else w == v
  }

  /** The emission's loop, when the slots in `remaining` are still to be reached. */
  ghost predicate Emitted(v: View, w: View, remaining: set<R.SlotId>, message: R.MessageType, conn: R.ConnectionId,
                          request: R.RequestId)
  {
    || (exists x :: CompletedBy(v, w, x, message, conn, request))
    || (w == v && forall x :: Matches(v, x, message, conn, request) && request in v.calls ==> x in remaining)
  }

  /** What running a slot makes of the view. */
  function AfterSlot(w: View, x: R.SlotId, conn: R.ConnectionId, request: R.RequestId): View {
    if x in w.slots && w.slots[x].conn == conn && w.slots[x].request == request && request in w.calls
    then Completed(w, request, w.slots[x].kind, w.slots[x].callback) else w
  }

  /** One round of the emission.  Once the request is completed it is not pending, so no later slot does anything. */
  lemma EmitOne(v: View, w: View, remaining: set<R.SlotId>, x: R.SlotId, message: R.MessageType, conn: R.ConnectionId,
                request: R.RequestId)
    requires x in remaining && x.message == message && Emitted(v, w, remaining, message, conn, request)
    ensures Emitted(v, AfterSlot(w, x, conn, request), remaining - {x}, message, conn, request)
  {
    if w == v && AfterSlot(w, x, conn, request) != w {
      assert CompletedBy(v, AfterSlot(w, x, conn, request), x, message, conn, request);
    }
  }

  /** What a completion changes, field by field. */
  lemma CompletedExactly(v: View, request: R.RequestId, kind: R.Kind, callback: bool)
    requires request in v.calls
    ensures var w, entry := Completed(v, request, kind, callback), v.calls[request];
      && w.calls == v.calls - {request}
      && (forall x :: x in w.slots <==> x in v.slots && x != entry.success && x != entry.error)
      && (forall x :: x in w.slots ==> w.slots[x] == v.slots[x])
      && w.trace == v.trace + [R.Completion(request, entry.call, kind, callback)]
      && HasCancelled(v.timer, w.timer, request)
  {
  }

  // ---- What routing means ----

  /** Each entry has its two slots, and the slots of a pending request are those of its entry.  There may be further
      slots, of calls that have not made their entry. */
  ghost predicate Linked(v: View) {
    && (forall r :: r in v.calls ==> EntryLinked(v, r, R.Success) && EntryLinked(v, r, R.Error))
    && (forall x :: x in v.slots && v.slots[x].request in v.calls ==> SlotLinked(v, x))
  }

  ghost predicate SlotLinked(v: View, x: R.SlotId)
    requires x in v.slots && v.slots[x].request in v.calls
  {
    var slot := v.slots[x];
    slot.kind != R.Timeout && x == HandleOf(v.calls[slot.request], slot.kind)
  }

  ghost predicate EntryLinked(v: View, r: R.RequestId, kind: R.Kind)
    requires r in v.calls
  {
    var x := HandleOf(v.calls[r], kind);
    x in v.slots && v.slots[x].request == r && v.slots[x].kind == kind
  }

  lemma LinkedTables(s: R.State, v: View)
    requires R.PlaceInv(s) && R.SlotInv(s) && v.calls == s.calls && v.slots == s.slots
    requires R.CalledOnce(s) || s.callers == map[]
    ensures Linked(v)
  {
    forall x | x in v.slots && v.slots[x].request in v.calls ensures SlotLinked(v, x) {
      var c, d := v.slots[x].call, v.calls[v.slots[x].request].call;
      assert R.SlotOk(s, x) && R.EntryOk(s, v.slots[x].request) && R.EnteredOk(s, d) && R.StageOk(s, d);
      assert R.CalledOnce(s) ==> R.SameCall(s, c, d);
    }
    forall r | r in v.calls ensures EntryLinked(v, r, R.Success) && EntryLinked(v, r, R.Error) {
      R.EntryHoldsBoth(s, r);
      assert R.SlotOk(s, v.calls[r].success) && R.SlotOk(s, v.calls[r].error);
    }
  }

  /** The request keeps its entry, its two slots, its timeout and the task of that. */
  ghost predicate Untouched(v: View, w: View, q: R.RequestId)
    requires q in v.calls
  {
    && q in w.calls && w.calls[q] == v.calls[q]
    && SameSlot(v, w, v.calls[q].success) && SameSlot(v, w, v.calls[q].error)
    && (q in w.timer.timeouts <==> q in v.timer.timeouts)
    && (q in v.timer.timeouts ==> w.timer.timeouts[q] == v.timer.timeouts[q] && SameTask(v, w, v.timer.timeouts[q]))
  }

  ghost predicate SameSlot(v: View, w: View, x: R.SlotId) {
    x in v.slots && x in w.slots && w.slots[x] == v.slots[x]
  }

  ghost predicate SameTask(v: View, w: View, task: R.TaskId) {
    && (task in w.timer.tasks <==> task in v.timer.tasks)
    && (task in v.timer.tasks ==> w.timer.tasks[task] == v.timer.tasks[task])
  }

  ghost predicate TasksApart(v: View) {
    forall q, r :: q in v.timer.timeouts && r in v.timer.timeouts && v.timer.timeouts[q] == v.timer.timeouts[r] ==>
      q == r
  }

  /** The message has completed `q` exactly if it is the request and awaits the message; then no slot of it is left, and
      otherwise it is as before. */
  ghost predicate Answered(v: View, w: View, message: R.MessageType, conn: R.ConnectionId, request: R.RequestId,
                           q: R.RequestId)
    requires q in v.calls
  {
    && (q !in w.calls <==>
          q == request && (Awaits(v, q, R.Success, message, conn) || Awaits(v, q, R.Error, message, conn)))
    && (q in w.calls ==> Untouched(v, w, q))
    && (q !in w.calls ==> forall x :: x in w.slots ==> w.slots[x].request != q)
  }

  /** A message completes the request exactly when it is pending and awaits the message, and leaves every other pending
      request alone, whatever signals they share and although slots go while the emission runs. */
  lemma RoutedExactly(v: View, w: View, message: R.MessageType, conn: R.ConnectionId, request: R.RequestId,
                      q: R.RequestId)
    requires Linked(v) && TasksApart(v) && Routed(v, w, message, conn, request) && q in v.calls
    ensures Answered(v, w, message, conn, request, q)
  {
    MatchesExactly(v, message, conn, request);
    assert EntryLinked(v, q, R.Success) && EntryLinked(v, q, R.Error);
    if request in v.calls && exists x :: Matches(v, x, message, conn, request) {
      var x :| CompletedBy(v, w, x, message, conn, request);
      CompletionSpares(v, w, x, message, conn, request, q);
    }
  }

  /** A pending request awaits the message exactly when a slot matches; the callback that runs is of its kind. */
  lemma MatchesExactly(v: View, message: R.MessageType, conn: R.ConnectionId, request: R.RequestId)
    requires Linked(v)
    ensures request in v.calls ==>
      ((exists x :: Matches(v, x, message, conn, request)) <==>
        Awaits(v, request, R.Success, message, conn) || Awaits(v, request, R.Error, message, conn))
    ensures forall x :: Matches(v, x, message, conn, request) && request in v.calls ==>
      Awaits(v, request, v.slots[x].kind, message, conn)
  {
    if request in v.calls {
      assert EntryLinked(v, request, R.Success) && EntryLinked(v, request, R.Error);
      assert Awaits(v, request, R.Success, message, conn) ==>
        Matches(v, HandleOf(v.calls[request], R.Success), message, conn, request);
      assert Awaits(v, request, R.Error, message, conn) ==>
        Matches(v, HandleOf(v.calls[request], R.Error), message, conn, request);
      forall x | Matches(v, x, message, conn, request) ensures Awaits(v, request, v.slots[x].kind, message, conn) {
        assert SlotLinked(v, x);
      }
    }
  }

  lemma CompletionSpares(v: View, w: View, x: R.SlotId, message: R.MessageType, conn: R.ConnectionId,
                         request: R.RequestId, q: R.RequestId)
    requires Linked(v) && TasksApart(v) && CompletedBy(v, w, x, message, conn, request) && q in v.calls
    ensures q != request ==> Untouched(v, w, q)
    ensures forall y :: y in w.slots ==> w.slots[y].request != request
  {
    assert EntryLinked(v, q, R.Success) && EntryLinked(v, q, R.Error);
    assert EntryLinked(v, request, R.Success) && EntryLinked(v, request, R.Error);
    forall y | y in w.slots ensures w.slots[y].request != request {
      assert v.slots[y].request == request ==> SlotLinked(v, y);
    }
  }

  /** What `Call` does to the entries and the slots. */
  ghost predicate Entered(calls: map<R.RequestId, R.PendingCall>, calls': map<R.RequestId, R.PendingCall>,
                          slots: map<R.SlotId, R.Slot>, slots': map<R.SlotId, R.Slot>, spec: R.Spec, call: R.CallId)
  {
    if spec.request in calls then
      calls' == calls && slots' == slots
    else
      && spec.request in calls' && calls' == calls[spec.request := calls'[spec.request]]
      && IsNewEntry(slots, slots', calls'[spec.request], spec, call)
  }

  ghost predicate IsNewEntry(before: map<R.SlotId, R.Slot>, after: map<R.SlotId, R.Slot>, entry: R.PendingCall,
                             spec: R.Spec, call: R.CallId)
  {
    && entry.success !in before && entry.success.message == spec.response
    && entry.error !in before && entry.error.message == spec.error && entry.success != entry.error && entry.call == call
    && after == before[entry.success := R.Slot(spec.request, spec.conn, R.Success, spec.onSuccess, call)]
                      [entry.error := R.Slot(spec.request, spec.conn, R.Error, spec.onError, call)]
  }

  lemma ReleaseUndoes(slots: map<R.SlotId, R.Slot>, slots': map<R.SlotId, R.Slot>, entry: R.PendingCall,
                      spec: R.Spec, call: R.CallId)
    requires IsNewEntry(slots, slots', entry, spec, call)
    ensures R.Freed(slots', entry.success, entry.error) == slots
  {
  }

  lemma NewSlot(steps: seq<R.Action>, s: R.State, message: R.MessageType)
    requires Reaches(steps, s)
    ensures R.NewSlotId(s, message) !in s.slots
  {
    ReachedInvariants(steps, s);
    assert R.SlotOk(s, R.NewSlotId(s, message));
  }
}
