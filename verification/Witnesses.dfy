/**
 Runs of one call that show what the code does not promise: two that leave a stale entry in the timeout table, and one
 in which a message claims a request that was not pending when its emission started.  Each lemma adds a step to the run
 of the one before it.
 */
module Witnesses {
  import opened Wrappers
  import R = RpcTables
  import S = SchedulerRuns
  import P = RpcProtocol
  import Q = RpcRouting
  import C = RpcClaims
  import Scheduling

  const SPEC := R.Spec(1, 0, 0, 1, false, false, false, Some(0))
  const X := R.SlotId(0, 0)
  const Y := R.SlotId(1, 0)
  const SLOT_X := map[X := R.SlotOf(SPEC, 0, R.Success)]
  const SLOTS := SLOT_X[Y := R.SlotOf(SPEC, 0, R.Error)]
  const COUNTERS: map<R.MessageType, nat> := map[0 := 1, 1 := 1]
  const ENTRY: map<R.RequestId, R.PendingCall> := map[1 := R.PendingCall(X, Y, 0)]
  const IDLE: S.State<R.Closure> := S.State(0, 1, map[], map[], S.Idle, map[], {})

  /** The call with its stage, its subscriptions and whether its timeout has a task. */
  function Calling(slots: map<R.SlotId, R.Slot>, counters: map<R.MessageType, nat>, stage: R.Stage): R.State {
    R.INITIAL.(nextRequest := 2, specs := map[0 := SPEC], place := map[0 := R.Before],
               slots := slots, counters := counters, callers := map[0 := stage])
  }

  /** The call from its entry on. */
  function Entered(stage: R.Stage, hasTask: bool): R.State {
    Calling(SLOTS, COUNTERS, stage).(calls := ENTRY, place := map[0 := R.Entered],
                                     armed := if hasTask then map[0 := 1] else map[],
                                     owner := if hasTask then map[1 := 0] else map[])
  }

  /** The call when its handler has claimed its entry. */
  function Taken(stage: R.Stage, hasTask: bool, kind: R.Kind, at: R.At, overtaken: set<R.CallId>): R.State {
    Entered(stage, hasTask).(calls := map[], slots := map[], place := map[0 := R.Held(0)], overtaken := overtaken,
                             handlers := map[0 := R.Handler(1, kind, false, kind == R.Timeout, at, 0)])
  }

  /** The rest of the call, when it has been completed. */
  function Completed(callers: map<R.CallId, R.Stage>, hasTask: bool, isRecorded: bool, kind: R.Kind): R.State {
    Entered(R.Arming, hasTask).(
      calls := map[], slots := map[], callers := callers,
      timeouts := if isRecorded then map[1 := 1] else map[], recorded := if isRecorded then {0} else {},
      place := map[0 := R.Done(0)], overtaken := {0}, trace := [R.Completion(1, 0, kind, false)])
  }

  ghost predicate EndsIn(ss: seq<P.State>, acts: seq<P.Action>, rpc: R.State, sched: S.State<R.Closure>) {
    P.IsRun(ss, acts) && ss[|acts|] == P.State(rpc, sched)
  }

  lemma Then(ss: seq<P.State>, acts: seq<P.Action>, rpc: R.State, sched: S.State<R.Closure>, a: R.Action, t: R.State)
      returns (tt: seq<P.State>, more: seq<P.Action>)
    requires EndsIn(ss, acts, rpc, sched) && !a.Arm? && !a.Store? && !a.RunItem? && !a.Unschedule?
    requires R.Enabled(rpc, a) && R.Apply(rpc, a) == t
    ensures EndsIn(tt, more, t, sched) && more == acts + [P.Rpc(a)]
  {
    tt, more := P.Then(ss, acts, P.Rpc(a), P.State(t, sched));
  }

  // ---- One call, up to its entry ----

  predicate HandlesNoMessage(acts: seq<P.Action>) {
    forall a :: a in acts ==> !(a.Rpc? && a.step.Deliver?)
  }

  lemma Prepared() returns (ss: seq<P.State>, acts: seq<P.Action>)
    ensures EndsIn(ss, acts, R.INITIAL.(nextRequest := 2), IDLE) && HandlesNoMessage(acts)
  {
    ss, acts := Then([P.State(R.INITIAL, IDLE)], [], R.INITIAL, IDLE, R.Prepare, R.INITIAL.(nextRequest := 2));
  }

  lemma Called() returns (ss: seq<P.State>, acts: seq<P.Action>)
    ensures EndsIn(ss, acts, Calling(map[], map[], R.Starting), IDLE) && HandlesNoMessage(acts)
  {
    ss, acts := Prepared();
    var s, t := R.INITIAL.(nextRequest := 2), Calling(map[], map[], R.Starting);
    ss, acts := Then(ss, acts, s, IDLE, R.Call(0, SPEC), t);
  }

  lemma HalfSubscribed() returns (ss: seq<P.State>, acts: seq<P.Action>)
    ensures EndsIn(ss, acts, Calling(SLOT_X, map[0 := 1], R.Half(X)), IDLE) && HandlesNoMessage(acts)
  {
    ss, acts := Called();
    var s, t := Calling(map[], map[], R.Starting), Calling(SLOT_X, map[0 := 1], R.Half(X));
    ss, acts := Then(ss, acts, s, IDLE, R.SubscribeSuccess(0), t);
  }

  lemma Subscribed() returns (ss: seq<P.State>, acts: seq<P.Action>)
    ensures EndsIn(ss, acts, Calling(SLOTS, COUNTERS, R.Full(X, Y)), IDLE) && HandlesNoMessage(acts)
  {
    ss, acts := HalfSubscribed();
    var s, t := Calling(SLOT_X, map[0 := 1], R.Half(X)), Calling(SLOTS, COUNTERS, R.Full(X, Y));
    ss, acts := Then(ss, acts, s, IDLE, R.SubscribeError(0), t);
  }

  lemma Pending() returns (ss: seq<P.State>, acts: seq<P.Action>)
    ensures EndsIn(ss, acts, Entered(R.Arming, false), IDLE) && HandlesNoMessage(acts)
  {
    ss, acts := Subscribed();
    var s, t := Calling(SLOTS, COUNTERS, R.Full(X, Y)), Entered(R.Arming, false);
    ss, acts := Then(ss, acts, s, IDLE, R.Insert(0), t);
  }

  // ---- A handler completes the call before it has recorded its timeout ----

  lemma Claimed(ss: seq<P.State>, acts: seq<P.Action>, stage: R.Stage, hasTask: bool, kind: R.Kind,
                sched: S.State<R.Closure>)
      returns (tt: seq<P.State>, more: seq<P.Action>)
    requires var h := R.Handler(1, kind, false, kind == R.Timeout, R.Claiming, 0);
      EndsIn(ss, acts, Entered(stage, hasTask).(handlers := map[0 := h]), sched)
    requires stage.Arming? || stage.Recording?
    ensures EndsIn(tt, more, Taken(stage, hasTask, kind, R.Cancelling(0), {}), sched)
    ensures more == acts + [P.Rpc(R.Claim(0))]
  {
    var h := R.Handler(1, kind, false, kind == R.Timeout, R.Claiming, 0);
    var s, t := Entered(stage, hasTask).(handlers := map[0 := h]), Taken(stage, hasTask, kind, R.Cancelling(0), {});
    NothingLeft();
    tt, more := Then(ss, acts, s, sched, R.Claim(0), t);
  }

  lemma NothingLeft()
    ensures R.Freed(SLOTS, X, Y) == map[] && ENTRY - {1} == map[]
  {
  }

  lemma Overtaken(ss: seq<P.State>, acts: seq<P.Action>, stage: R.Stage, hasTask: bool, kind: R.Kind,
                  sched: S.State<R.Closure>)
      returns (tt: seq<P.State>, more: seq<P.Action>)
    requires EndsIn(ss, acts, Taken(stage, hasTask, kind, R.Cancelling(0), {}), sched)
    requires stage.Arming? || stage.Recording?
    ensures EndsIn(tt, more, Taken(stage, hasTask, kind, R.Invoking(0), {0}), sched)
    ensures more == acts + [P.Rpc(R.CancelNothing(0))]
  {
    var s, t := Taken(stage, hasTask, kind, R.Cancelling(0), {}), Taken(stage, hasTask, kind, R.Invoking(0), {0});
    tt, more := Then(ss, acts, s, sched, R.CancelNothing(0), t);
  }

  lemma Invoked(ss: seq<P.State>, acts: seq<P.Action>, stage: R.Stage, hasTask: bool, kind: R.Kind,
                sched: S.State<R.Closure>)
      returns (tt: seq<P.State>, more: seq<P.Action>)
    requires EndsIn(ss, acts, Taken(stage, hasTask, kind, R.Invoking(0), {0}), sched)
    ensures EndsIn(tt, more, Completed(map[0 := stage], hasTask, false, kind), sched)
    ensures more == acts + [P.Rpc(R.Invoke(0))]
  {
    var s, t := Taken(stage, hasTask, kind, R.Invoking(0), {0}), Completed(map[0 := stage], hasTask, false, kind);
    tt, more := Then(ss, acts, s, sched, R.Invoke(0), t);
  }

  lemma Recorded(ss: seq<P.State>, acts: seq<P.Action>, kind: R.Kind, sched: S.State<R.Closure>)
      returns (tt: seq<P.State>, more: seq<P.Action>)
    requires EndsIn(ss, acts, Completed(map[0 := R.Recording(1)], true, false, kind), sched)
    ensures EndsIn(tt, more, Completed(map[0 := R.Sending], true, true, kind), sched)
    ensures more == acts + [P.Rpc(R.Record(0))]
  {
    var s, t := Completed(map[0 := R.Recording(1)], true, false, kind),
                Completed(map[0 := R.Sending], true, true, kind);
    tt, more := Then(ss, acts, s, sched, R.Record(0), t);
  }

  lemma Sent(ss: seq<P.State>, acts: seq<P.Action>, kind: R.Kind, sched: S.State<R.Closure>)
      returns (tt: seq<P.State>, more: seq<P.Action>)
    requires EndsIn(ss, acts, Completed(map[0 := R.Sending], true, true, kind), sched)
    ensures EndsIn(tt, more, Completed(map[], true, true, kind), sched)
    ensures more == acts + [P.Rpc(R.Send(0))]
  {
    var s, t := Completed(map[0 := R.Sending], true, true, kind), Completed(map[], true, true, kind);
    tt, more := Then(ss, acts, s, sched, R.Send(0), t);
  }

  // ---- The scheduler ----

  const DUE: Scheduling.Time := 15_000_000
  const CLOSURE := R.ClosureOf(SPEC, 0)
  const TASK := Scheduling.Task(1, DUE, DUE, CLOSURE, true)
  const BORN: Scheduling.Table<R.Closure> := map[1 := TASK]
  const ADDING: S.State<R.Closure> := S.State(0, 2, BORN, map[], S.Idle, BORN, {})
  const STORED: S.State<R.Closure> := S.State(0, 2, map[], BORN, S.Idle, BORN, {1})
  const BATCH: Scheduling.Batch<R.Closure> := Scheduling.Batch([1], [CLOSURE], [1], Scheduling.TIME_MAX)

  /** The scheduler at item `next` of the batch of its first scan. */
  function Running(next: nat): S.State<R.Closure> {
    S.State(DUE, 2, map[], map[1 := TASK.(due := DUE + DUE)], S.Running(BATCH, next, DUE), BORN, {})
  }

  lemma Armed(ss: seq<P.State>, acts: seq<P.Action>, s: R.State, t: R.State)
      returns (tt: seq<P.State>, more: seq<P.Action>)
    requires EndsIn(ss, acts, s, IDLE) && s.specs == map[0 := SPEC]
    requires R.Enabled(s, R.Arm(0, 1)) && R.Apply(s, R.Arm(0, 1)) == t
    ensures EndsIn(tt, more, t, ADDING) && more == acts + [P.Arm(0, 0)]
  {
    tt, more := P.Then(ss, acts, P.Arm(0, 0), P.State(t, ADDING));
  }

  lemma Stored(ss: seq<P.State>, acts: seq<P.Action>, s: R.State, t: R.State)
      returns (tt: seq<P.State>, more: seq<P.Action>)
    requires EndsIn(ss, acts, s, ADDING) && R.Enabled(s, R.Store(0)) && s.callers[0].task == 1
    requires R.Apply(s, R.Store(0)) == t
    ensures EndsIn(tt, more, t, STORED) && more == acts + [P.Store(0)]
  {
    tt, more := P.Then(ss, acts, P.Store(0), P.State(t, STORED));
  }

  lemma Scanned(ss: seq<P.State>, acts: seq<P.Action>, s: R.State) returns (tt: seq<P.State>, more: seq<P.Action>)
    requires EndsIn(ss, acts, s, STORED)
    ensures EndsIn(tt, more, s, Running(0)) && more == acts + [P.Scheduler(S.Scan(DUE, BATCH))]
  {
    ScanCollects();
    assert 1 in STORED.tasks;
    assert S.Apply(STORED, S.Scan(DUE, BATCH)) == Running(0);
    tt, more := P.Then(ss, acts, P.Scheduler(S.Scan(DUE, BATCH)), P.State(s, Running(0)));
  }

  lemma ScanCollects()
    ensures Scheduling.IsScan(BORN, DUE, BATCH)
    ensures Scheduling.RearmAll(BORN, DUE) == map[1 := TASK.(due := DUE + DUE)]
  {
  }

  lemma Expired(ss: seq<P.State>, acts: seq<P.Action>, s: R.State, t: R.State)
      returns (tt: seq<P.State>, more: seq<P.Action>)
    requires EndsIn(ss, acts, s, Running(0))
    requires R.Enabled(s, R.RunItem(0, CLOSURE)) && R.Apply(s, R.RunItem(0, CLOSURE)) == t
    ensures EndsIn(tt, more, t, Running(1)) && more == acts + [P.RunItem(0)]
  {
    var u := P.State(t, Running(1));
    assert P.IsNextItem(Running(0), CLOSURE) && P.RpcStep(ss[|acts|], R.RunItem(0, CLOSURE), u);
    tt, more := P.Then(ss, acts, P.RunItem(0), u);
  }

  // ---- The stale entries ----

  /** All is quiet at the end of the run, and request 1 is in the timeout table without being pending. */
  ghost predicate LeavesStaleEntry(ss: seq<P.State>, acts: seq<P.Action>) {
    && P.IsRun(ss, acts)
    && var s := ss[|acts|].rpc;
    && R.CalledOnce(s) && R.Quiet(s) && s.callers == map[] && s.handlers == map[]
    && 1 in s.timeouts && 1 !in s.calls
  }

  lemma CompletedIsStale(ss: seq<P.State>, acts: seq<P.Action>, kind: R.Kind, sched: S.State<R.Closure>)
    requires EndsIn(ss, acts, Completed(map[], true, true, kind), sched)
    ensures LeavesStaleEntry(ss, acts)
  {
  }

  lemma Delivered() returns (ss: seq<P.State>, acts: seq<P.Action>)
    ensures EndsIn(ss, acts, Entered(R.Arming, false).(
      handlers := map[0 := R.Handler(1, R.Success, false, false, R.Claiming, 0)]), IDLE)
  {
    ss, acts := Pending();
    var s := Entered(R.Arming, false);
    ss, acts := Then(ss, acts, s, IDLE, R.Deliver(0, X),
                     s.(handlers := map[0 := R.Handler(1, R.Success, false, false, R.Claiming, 0)]));
  }

  lemma CompletesFirst() returns (ss: seq<P.State>, acts: seq<P.Action>)
    ensures EndsIn(ss, acts, Completed(map[0 := R.Arming], false, false, R.Success), IDLE)
  {
    ss, acts := Delivered();
    ss, acts := Claimed(ss, acts, R.Arming, false, R.Success, IDLE);
    ss, acts := Overtaken(ss, acts, R.Arming, false, R.Success, IDLE);
    ss, acts := Invoked(ss, acts, R.Arming, false, R.Success, IDLE);
  }

  lemma ArmsAfterwards()
    ensures var s, t := Completed(map[0 := R.Arming], false, false, R.Success),
                        Completed(map[0 := R.Storing(1)], true, false, R.Success);
      R.Enabled(s, R.Arm(0, 1)) && R.Apply(s, R.Arm(0, 1)) == t
  {
  }

  lemma StoresAfterwards()
    ensures var s, t := Completed(map[0 := R.Storing(1)], true, false, R.Success),
                        Completed(map[0 := R.Recording(1)], true, false, R.Success);
      R.Enabled(s, R.Store(0)) && R.Apply(s, R.Store(0)) == t
  {
  }

  /** A response is handled before its call has armed the timeout. */
  lemma StaleEntry() returns (ss: seq<P.State>, acts: seq<P.Action>)
    ensures LeavesStaleEntry(ss, acts)
  {
    ss, acts := CompletesFirst();
    var s, t, u := Completed(map[0 := R.Arming], false, false, R.Success),
                   Completed(map[0 := R.Storing(1)], true, false, R.Success),
                   Completed(map[0 := R.Recording(1)], true, false, R.Success);
    ArmsAfterwards();
    ss, acts := Armed(ss, acts, s, t);
    StoresAfterwards();
    ss, acts := Stored(ss, acts, t, u);
    ss, acts := Recorded(ss, acts, R.Success, STORED);
    ss, acts := Sent(ss, acts, R.Success, STORED);
    CompletedIsStale(ss, acts, R.Success, STORED);
  }

  lemma ArmsAndStores()
    ensures R.Enabled(Entered(R.Arming, false), R.Arm(0, 1)) && R.Enabled(Entered(R.Storing(1), true), R.Store(0))
    ensures R.Apply(Entered(R.Arming, false), R.Arm(0, 1)) == Entered(R.Storing(1), true)
    ensures R.Apply(Entered(R.Storing(1), true), R.Store(0)) == Entered(R.Recording(1), true)
  {
  }

  lemma Expires(s: R.State)
    requires s == Entered(R.Recording(1), true)
    ensures R.Enabled(s, R.RunItem(0, CLOSURE))
    ensures R.Apply(s, R.RunItem(0, CLOSURE)) ==
      s.(handlers := map[0 := R.Handler(1, R.Timeout, false, true, R.Claiming, 0)])
  {
  }

  lemma StoredUnrecorded() returns (ss: seq<P.State>, acts: seq<P.Action>)
    ensures EndsIn(ss, acts, Entered(R.Recording(1), true), STORED) && HandlesNoMessage(acts)
  {
    ss, acts := Pending();
    ArmsAndStores();
    ss, acts := Armed(ss, acts, Entered(R.Arming, false), Entered(R.Storing(1), true));
    ss, acts := Stored(ss, acts, Entered(R.Storing(1), true), Entered(R.Recording(1), true));
  }

  lemma RunsBeforeRecord() returns (ss: seq<P.State>, acts: seq<P.Action>)
    ensures EndsIn(ss, acts, Entered(R.Recording(1), true).(
      handlers := map[0 := R.Handler(1, R.Timeout, false, true, R.Claiming, 0)]), Running(1))
    ensures HandlesNoMessage(acts)
  {
    ss, acts := StoredUnrecorded();
    var s := Entered(R.Recording(1), true);
    ss, acts := Scanned(ss, acts, s);
    Expires(s);
    ss, acts := Expired(ss, acts, s, s.(handlers := map[0 := R.Handler(1, R.Timeout, false, true, R.Claiming, 0)]));
  }

  /** A scan collects the task and runs its closure after the call has stored it and before it has recorded it; there is
      no message at all. */
  lemma StaleEntryWithoutMessages() returns (ss: seq<P.State>, acts: seq<P.Action>)
    ensures LeavesStaleEntry(ss, acts) && HandlesNoMessage(acts)
  {
    ss, acts := RunsBeforeRecord();
    ss, acts := Claimed(ss, acts, R.Recording(1), true, R.Timeout, Running(1));
    ss, acts := Overtaken(ss, acts, R.Recording(1), true, R.Timeout, Running(1));
    ss, acts := Invoked(ss, acts, R.Recording(1), true, R.Timeout, Running(1));
    ss, acts := Recorded(ss, acts, R.Timeout, Running(1));
    ss, acts := Sent(ss, acts, R.Timeout, Running(1));
    CompletedIsStale(ss, acts, R.Timeout, Running(1));
  }

  // ---- A message that claims a request that was not pending ----

  /** The call has subscribed and not made its entry. */
  function Listening(): R.State {
    Calling(SLOTS, COUNTERS, R.Full(X, Y))
  }

  /** Then the emission of a message for its request starts. */
  lemma EmissionStarts() returns (ss: seq<Q.State>, acts: seq<Q.Action>)
    ensures Q.IsRun(ss, acts) && |acts| > 0 && acts[|acts| - 1] == Q.Start(0, 0, 0, 1, [X])
    ensures ss[|acts| - 1] == Q.State(P.State(Listening(), IDLE), map[])
    ensures ss[|acts|].joint.rpc.specs == map[0 := SPEC]
  {
    var tt, bs := Subscribed();
    ss, acts := Q.RunWithoutMessages(tt, bs);
    var t := Q.State(P.State(Listening(), IDLE), map[0 := Q.Started(Listening(), 0, 0, 1, [X])]);
    StartsForX(ss[|acts|], t);
    ss, acts := Q.OneMore(ss, acts, Q.Start(0, 0, 0, 1, [X]), t);
  }

  lemma StartsForX(s: Q.State, t: Q.State)
    requires s == Q.State(P.State(Listening(), IDLE), map[])
    requires t == Q.State(P.State(Listening(), IDLE), map[0 := Q.Started(Listening(), 0, 0, 1, [X])])
    ensures Q.Next(s, Q.Start(0, 0, 0, 1, [X]), t)
  {
  }

  lemma ListensBeforeEntry(s: R.State)
    requires s == Listening()
    ensures C.Listens(s, 0, R.Success, 0, 0, 1) && 1 !in s.calls
  {
  }

  /** When the emission starts, its request is not pending; later in the run the emission claims it.  There is one call
      only. */
  lemma ClaimsUnpendingRequest() returns (ss: seq<Q.State>, acts: seq<Q.Action>, i: nat)
    ensures Q.IsRun(ss, acts) && R.CalledOnce(ss[|acts|].joint.rpc)
    ensures i < |acts| && acts[i] == Q.Start(0, 0, 0, 1, [X]) && Q.Claim(0) in acts[i..]
    ensures ss[i].joint.rpc == Listening() && 1 !in ss[i].joint.rpc.calls
  {
    ss, acts := EmissionStarts();
    i := |acts| - 1;
    ListensBeforeEntry(ss[i].joint.rpc);
    C.CanClaimExactly(ss, acts, i);
    var t := ss[i + 1];
    assert C.CanClaim(t, 0);
    var uu, cs :| C.ClaimsOn(t, 0, uu, cs);
    C.NoCallsOnPath(uu, cs, |cs|);
    var front := acts[..i + 1];
    ss, acts := Q.Follow(ss, acts, i + 1, uu, cs);
    assert acts[i..] == front[i..] + cs;
    OneCallOnce(ss[|acts|].joint.rpc);
  }

  lemma OneCallOnce(s: R.State)
    requires s.specs == map[0 := SPEC]
    ensures R.CalledOnce(s)
  {
  }
}
