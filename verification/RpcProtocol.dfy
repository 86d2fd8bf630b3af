/**
 The RPC tables and the scheduler together: the joint steps of `ScheduleTimeout`, `CancelTimeout` and the
 scheduler thread, interleaved with everything else in any order.
 */
module RpcProtocol {
  import opened Wrappers
  import R = RpcTables
  import S = SchedulerRuns
  import Scheduling

  datatype State = State(rpc: R.State, sched: S.State<R.Closure>)

  /** `Arm`, `Store`, `RunItem` and `Unschedule` are steps of both parts; `Scheduler` are the other steps of the
      scheduler thread and the steps of the scheduler's other users. */
  datatype Action =
    | Rpc(step: R.Action)
    | Arm(call: R.CallId, now: Scheduling.Time)
    | Store(call: R.CallId)
    | RunItem(handler: R.HandlerId)
    | Unschedule(handler: R.HandlerId)
    | Scheduler(foreign: S.Action<R.Closure>)

  /** The closure the scheduler thread runs next. */
  ghost predicate IsNextItem(s: S.State<R.Closure>, closure: R.Closure) {
    && s.phase.Running? && s.phase.next < |s.phase.batch.fired| == |s.phase.batch.callbacks|
    && s.phase.batch.callbacks[s.phase.next] == closure
  }

  /** The steps of the scheduler that are not joint ones.  Its other users cannot name the tasks of the RPC system,
      and the scheduler thread is busy while it runs a handler. */
  ghost predicate IsForeign(s: State, step: S.Action<R.Closure>) {
    match step
    case Begin(_, _, callback, _) => callback.Foreign?
    case Commit(id) => id in s.sched.born && s.sched.born[id].callback.Foreign?
    case Remove(id) => id in s.sched.born ==> s.sched.born[id].callback.Foreign?
    case RunItem => R.NotOnScheduler(s.rpc) && exists code :: IsNextItem(s.sched, R.Foreign(code))
    case Erase => R.NotOnScheduler(s.rpc)
    case Scan(_, _) => true
    case Sleep => true
  }

  ghost predicate RpcStep(s: State, step: R.Action, t: State) {
    R.Enabled(s.rpc, step) && t.rpc == R.Apply(s.rpc, step)
  }

  ghost predicate Next(s: State, a: Action, t: State) {
    match a
    case Rpc(step) =>
      && !step.Arm? && !step.Store? && !step.RunItem? && !step.Unschedule?
      && RpcStep(s, step, t) && t.sched == s.sched
    case Arm(c, now) =>
      && c in s.rpc.specs && s.rpc.specs[c].timeout.Some?
      && RpcStep(s, R.Arm(c, s.sched.nextId), t)
      && S.Next(s.sched, S.Begin(now, s.rpc.specs[c].timeout.value, R.ClosureOf(s.rpc.specs[c], c), true), t.sched)
    case Store(c) =>
      && RpcStep(s, R.Store(c), t)
      && S.Next(s.sched, S.Commit(s.rpc.callers[c].task), t.sched)
    case RunItem(h) =>
      && S.Next(s.sched, S.RunItem, t.sched)
      && exists closure :: IsNextItem(s.sched, closure) && RpcStep(s, R.RunItem(h, closure), t)
    case Unschedule(h) =>
      && RpcStep(s, R.Unschedule(h), t)
      && S.Next(s.sched, S.Remove(s.rpc.handlers[h].at.task), t.sched)
    case Scheduler(step) =>
      && IsForeign(s, step) && S.Next(s.sched, step, t.sched) && t.rpc == s.rpc
  }

  ghost predicate StepAt(ss: seq<State>, acts: seq<Action>, i: nat)
    requires i < |acts| < |ss|
  {
    Next(ss[i], acts[i], ss[i + 1])
  }

  ghost predicate IsRun(ss: seq<State>, acts: seq<Action>) {
    && |ss| == |acts| + 1
    && ss[0].rpc == R.INITIAL && S.IsInitial(ss[0].sched)
    && forall i :: 0 <= i < |acts| ==> StepAt(ss, acts, i)
  }

  /** A run goes on with any step that is enabled. */
  lemma Then(ss: seq<State>, acts: seq<Action>, a: Action, t: State) returns (tt: seq<State>, more: seq<Action>)
    requires IsRun(ss, acts) && Next(ss[|acts|], a, t)
    ensures IsRun(tt, more) && tt[|more|] == t && tt == ss + [t] && more == acts + [a]
  {
    tt, more := ss + [t], acts + [a];
    forall i | 0 <= i < |more| ensures StepAt(tt, more, i) {
      assert i < |acts| ==> StepAt(ss, acts, i);
    }
  }

  // ---- Invariants of the two parts ----

  ghost predicate RpcInv(s: R.State) {
    R.PlaceInv(s) && R.SlotInv(s) && R.TimeoutInv(s)
  }

  lemma InitialRpcInv()
    ensures RpcInv(R.INITIAL) && R.AgreeInv(R.INITIAL)
  {
  }

  lemma RpcStepKept(s: State, step: R.Action, t: State)
    requires RpcInv(s.rpc) && RpcStep(s, step, t)
    ensures RpcInv(t.rpc)
    ensures R.CalledOnce(s.rpc) && R.AgreeInv(s.rpc) ==> R.AgreeInv(t.rpc)
  {
    R.PlaceInvKept(s.rpc, step);
    R.SlotInvKept(s.rpc, step);
    R.TimeoutInvKept(s.rpc, step);
    if R.CalledOnce(s.rpc) && R.AgreeInv(s.rpc) {
      R.AgreeInvKept(s.rpc, step);
    }
  }

  ghost predicate IsPartOf(s: State, step: R.Action, a: Action) {
    match step
    case Arm(c, _) => a.Arm? && a.call == c
    case Store(c) => a == Store(c)
    case RunItem(h, closure) => a == RunItem(h) && IsNextItem(s.sched, closure)
    case Unschedule(h) => a == Unschedule(h)
    case _ => a == Rpc(step)
  }

  /** The step of the RPC tables in a joint step, if it has one. */
  lemma RpcPart(s: State, a: Action, t: State) returns (step: Option<R.Action>)
    requires Next(s, a, t)
    ensures match step case None => t.rpc == s.rpc case Some(r) => RpcStep(s, r, t) && IsPartOf(s, r, a)
  {
    match a
    case Rpc(r) => step := Some(r);
    case Arm(c, _) => step := Some(R.Arm(c, s.sched.nextId));
    case Store(c) => step := Some(R.Store(c));
    case RunItem(h) =>
      var closure :| IsNextItem(s.sched, closure) && RpcStep(s, R.RunItem(h, closure), t);
      step := Some(R.RunItem(h, closure));
    case Unschedule(h) => step := Some(R.Unschedule(h));
    case Scheduler(_) => step := None;
  }

  /** The step of the scheduler in a joint step, if it has one. */
  lemma SchedulerPart(s: State, a: Action, t: State) returns (step: Option<S.Action<R.Closure>>)
    requires Next(s, a, t)
    ensures match step
      case None => t.sched == s.sched
      case Some(r) =>
        && S.Next(s.sched, r, t.sched) && (r.Scan? ==> a.Scheduler? && a.foreign.Scan?)
        && (a.Store? ==> r == S.Commit(s.rpc.callers[a.call].task))
  {
    match a
    case Rpc(_) => step := None;
    case Arm(c, now) =>
      step := Some(S.Begin(now, s.rpc.specs[c].timeout.value, R.ClosureOf(s.rpc.specs[c], c), true));
    case Store(c) => step := Some(S.Commit(s.rpc.callers[c].task));
    case RunItem(_) => step := Some(S.RunItem);
    case Unschedule(h) => step := Some(S.Remove(s.rpc.handlers[h].at.task));
    case Scheduler(r) => step := Some(r);
  }

  lemma RpcPartKept(s: State, a: Action, t: State)
    requires RpcInv(s.rpc) && Next(s, a, t)
    ensures RpcInv(t.rpc)
    ensures R.CalledOnce(s.rpc) && R.AgreeInv(s.rpc) ==> R.AgreeInv(t.rpc)
  {
    var step := RpcPart(s, a, t);
    if step.Some? {
      RpcStepKept(s, step.value, t);
    }
  }

  lemma SchedulerPartKept(s: State, a: Action, t: State)
    requires S.Inv(s.sched) && Next(s, a, t)
    ensures S.Inv(t.sched)
  {
    var step := SchedulerPart(s, a, t);
    if step.Some? {
      S.InvKept(s.sched, step.value, t.sched);
    }
  }

  lemma {:induction false} PartsHold(ss: seq<State>, acts: seq<Action>, n: nat)
    requires IsRun(ss, acts) && n < |ss|
    ensures RpcInv(ss[n].rpc) && S.Inv(ss[n].sched)
  {
    if n == 0 {
      InitialRpcInv();
    } else {
      PartsHold(ss, acts, n - 1);
      assert StepAt(ss, acts, n - 1);
      RpcPartKept(ss[n - 1], acts[n - 1], ss[n]);
      SchedulerPartKept(ss[n - 1], acts[n - 1], ss[n]);
    }
  }

  // ---- At most one callback, and no leaked slots, over every interleaving ----

  /** In every run, two completions belong to two calls; when `Call()` was invoked once per prepared request, they
      belong to two requests, so no request runs two of its callbacks or one of them twice. */
  lemma AtMostOneCallback(ss: seq<State>, acts: seq<Action>, n: nat, i: nat, j: nat)
    requires IsRun(ss, acts) && n < |ss| && i < j < |ss[n].rpc.trace|
    ensures ss[n].rpc.trace[i].call != ss[n].rpc.trace[j].call
    ensures R.CalledOnce(ss[n].rpc) ==> ss[n].rpc.trace[i].request != ss[n].rpc.trace[j].request
  {
    PartsHold(ss, acts, n);
    R.AtMostOneCompletion(ss[n].rpc, i, j);
  }

  /** In every run, whenever no call is subscribing, the slots are exactly two distinct ones per pending request. */
  lemma NoLeakedSlots(ss: seq<State>, acts: seq<Action>, n: nat)
    requires IsRun(ss, acts) && n < |ss| && R.NoneSubscribing(ss[n].rpc)
    ensures var s := ss[n].rpc;
      && s.slots.Keys == R.SuccessSlots(s).Values + R.ErrorSlots(s).Values
      && (forall q, r :: R.EntriesApart(s, q, r))
      && |s.slots| == 2 * |s.calls|
  {
    PartsHold(ss, acts, n);
    R.SubscriptionConservation(ss[n].rpc);
  }

  // ---- Tasks and calls ----

  /** A task on the scheduler is a foreign one or the one task of the call it names. */
  ghost predicate BirthOk(s: State, task: R.TaskId) {
    task in s.sched.born ==>
      match s.sched.born[task].callback
      case RpcTimeout(_, c, _) =>
        && c in s.rpc.specs && s.sched.born[task].callback == R.ClosureOf(s.rpc.specs[c], c)
        && c in s.rpc.armed && s.rpc.armed[c] == task && s.sched.born[task].once
      case Foreign(_) => task !in s.rpc.owner
  }

  ghost predicate OwnOk(s: State, task: R.TaskId) {
    task in s.rpc.owner ==>
      && task in s.sched.born && s.sched.born[task].callback.RpcTimeout?
      && s.sched.born[task].callback.call == s.rpc.owner[task]
  }

  /** A task is being added exactly while its call is about to store it. */
  ghost predicate StoreOk(s: State, c: R.CallId) {
    c in s.rpc.armed ==>
      (s.rpc.armed[c] in s.sched.adding <==> c in s.rpc.callers && s.rpc.callers[c].Storing?)
  }

  ghost predicate TaskInv(s: State) {
    && (forall task :: BirthOk(s, task))
    && (forall task :: OwnOk(s, task))
    && (forall c :: StoreOk(s, c))
  }

  /** The steps other than `Arm` and a foreign `Begin` leave the tasks and their calls as they are. */
  ghost predicate TasksSame(s: State, t: State) {
    && t.sched.born == s.sched.born
    && t.rpc.armed == s.rpc.armed && t.rpc.owner == s.rpc.owner
    && R.SpecsKept(s.rpc, t.rpc)
  }

  predicate IsBegin(a: Action) {
    a.Arm? || (a.Scheduler? && a.foreign.Begin?)
  }

  lemma NoNewTasks(s: State, a: Action, t: State)
    requires Next(s, a, t) && !IsBegin(a)
    ensures TasksSame(s, t)
  {
    var step := RpcPart(s, a, t);
    if step.Some? {
      R.FieldsChange(s.rpc, step.value);
      R.SpecsStay(s.rpc, step.value);
    }
  }

  lemma SameTasksKept(s: State, t: State, task: R.TaskId)
    requires TasksSame(s, t)
    ensures BirthOk(s, task) ==> BirthOk(t, task)
    ensures OwnOk(s, task) ==> OwnOk(t, task)
  {
  }

  lemma NewTaskKept(s: State, a: Action, t: State, task: R.TaskId)
    requires Next(s, a, t) && IsBegin(a) && BirthOk(s, task) && OwnOk(s, task)
    requires s.sched.nextId !in s.sched.born && OwnOk(s, s.sched.nextId)
    requires a.Arm? ==> R.ArmOk(s.rpc, a.call)
    ensures BirthOk(t, task) && OwnOk(t, task)
  {
  }

  lemma StoreKeptArm(s: State, a: Action, t: State, c: R.CallId)
    requires Next(s, a, t) && a.Arm? && StoreOk(s, c) && R.ArmOk(s.rpc, c) && OwnOk(s, s.sched.nextId)
    requires s.sched.nextId !in s.sched.born
    ensures StoreOk(t, c)
  {
  }

  lemma StoreKeptStore(s: State, a: Action, t: State, c: R.CallId)
    requires Next(s, a, t) && a.Store? && StoreOk(s, c) && R.ArmOk(s.rpc, c) && R.ArmOk(s.rpc, a.call)
    ensures StoreOk(t, c)
  {
  }

  lemma StoreKeptScheduler(s: State, a: Action, t: State, c: R.CallId)
    requires Next(s, a, t) && a.Scheduler? && StoreOk(s, c) && R.ArmOk(s.rpc, c)
    requires s.sched.nextId !in s.sched.born && (c in s.rpc.armed ==> OwnOk(s, s.rpc.armed[c]))
    ensures StoreOk(t, c)
  {
  }

  lemma StoreKeptRpc(s: State, a: Action, t: State, c: R.CallId)
    requires Next(s, a, t) && a.Rpc? && StoreOk(s, c) && R.ArmOk(s.rpc, c)
    ensures StoreOk(t, c)
  {
    R.FieldsChange(s.rpc, a.step);
    if c in s.rpc.armed {
      R.StoringKept(s.rpc, a.step, c);
    }
  }

  lemma StoreKeptOther(s: State, a: Action, t: State, c: R.CallId)
    requires Next(s, a, t) && (a.RunItem? || a.Unschedule?) && StoreOk(s, c)
    ensures StoreOk(t, c)
  {
  }

  lemma StoreKept(s: State, a: Action, t: State, c: R.CallId)
    requires Next(s, a, t) && RpcInv(s.rpc) && S.BornInv(s.sched) && TaskInv(s)
    ensures StoreOk(t, c)
  {
    assert StoreOk(s, c) && R.ArmOk(s.rpc, c) && OwnOk(s, s.sched.nextId);
    match a
    case Arm(_, _) => StoreKeptArm(s, a, t, c);
    case Store(d) =>
      assert R.ArmOk(s.rpc, d);
      StoreKeptStore(s, a, t, c);
    case Scheduler(_) =>
      assert c in s.rpc.armed ==> OwnOk(s, s.rpc.armed[c]);
      StoreKeptScheduler(s, a, t, c);
    case Rpc(_) => StoreKeptRpc(s, a, t, c);
    case _ => StoreKeptOther(s, a, t, c);
  }

  lemma TaskKept(s: State, a: Action, t: State, task: R.TaskId)
    requires Next(s, a, t) && RpcInv(s.rpc) && S.BornInv(s.sched) && TaskInv(s)
    ensures BirthOk(t, task) && OwnOk(t, task)
  {
    assert BirthOk(s, task) && OwnOk(s, task) && OwnOk(s, s.sched.nextId);
    if IsBegin(a) {
      assert a.Arm? ==> R.ArmOk(s.rpc, a.call);
      NewTaskKept(s, a, t, task);
    } else {
      NoNewTasks(s, a, t);
      SameTasksKept(s, t, task);
    }
  }

  lemma TaskInvKept(s: State, a: Action, t: State)
    requires Next(s, a, t) && RpcInv(s.rpc) && S.BornInv(s.sched) && TaskInv(s)
    ensures TaskInv(t)
  {
    forall task ensures BirthOk(t, task) && OwnOk(t, task) { TaskKept(s, a, t, task); }
    forall c ensures StoreOk(t, c) { StoreKept(s, a, t, c); }
  }

  lemma {:induction false} TasksHold(ss: seq<State>, acts: seq<Action>, n: nat)
    requires IsRun(ss, acts) && n < |ss|
    ensures TaskInv(ss[n])
  {
    if n > 0 {
      TasksHold(ss, acts, n - 1);
      PartsHold(ss, acts, n - 1);
      assert StepAt(ss, acts, n - 1);
      TaskInvKept(ss[n - 1], acts[n - 1], ss[n]);
    }
  }

  // ---- A completion runs the call's own callback ----

  lemma ItemStartsTrue(s: State, h: R.HandlerId, closure: R.Closure)
    requires S.Inv(s.sched) && TaskInv(s) && IsNextItem(s.sched, closure)
    requires R.Enabled(s.rpc, R.RunItem(h, closure))
    ensures R.StartsTrue(s.rpc, R.RunItem(h, closure))
  {
    assert BirthOk(s, s.sched.phase.batch.fired[s.sched.phase.next]);
  }

  lemma StepStartsTrue(s: State, a: Action, t: State, step: R.Action)
    requires Next(s, a, t) && RpcInv(s.rpc) && S.Inv(s.sched) && TaskInv(s)
    requires R.Enabled(s.rpc, step) && IsPartOf(s, step, a)
    ensures R.StartsTrue(s.rpc, step)
  {
    match step
    case Deliver(_, x) => assert R.SlotOk(s.rpc, x);
    case RunItem(h, closure) => ItemStartsTrue(s, h, closure);
    case _ =>
  }

  ghost predicate SourceInv(s: R.State) {
    (forall h :: R.SourceOk(s, h)) && (R.CalledOnce(s) ==> forall i :: R.OwnCallbackOk(s, i))
  }

  lemma SourceStep(s: R.State, step: R.Action)
    requires RpcInv(s) && SourceInv(s) && R.Enabled(s, step) && R.StartsTrue(s, step)
    ensures SourceInv(R.Apply(s, step))
  {
    var t := R.Apply(s, step);
    forall h ensures R.SourceOk(t, h) {
      assert R.SourceOk(s, h);
      R.SourceKept(s, step, h);
    }
    R.SpecsStay(s, step);
    if R.CalledOnce(t) {
      R.CalledOnceKept(s, t);
      forall i ensures R.OwnCallbackOk(t, i) {
        assert step.Invoke? ==> R.SourceOk(s, step.handler) && R.HolderOk(s, step.handler);
        assert R.OwnCallbackOk(s, i);
        R.OwnCallbackKept(s, step, i);
      }
    }
  }

  lemma SourceMoves(s: State, a: Action, t: State)
    requires Next(s, a, t) && RpcInv(s.rpc) && S.Inv(s.sched) && TaskInv(s) && SourceInv(s.rpc)
    ensures SourceInv(t.rpc)
  {
    var step := RpcPart(s, a, t);
    if step.Some? {
      StepStartsTrue(s, a, t, step.value);
      SourceStep(s.rpc, step.value);
    }
  }

  lemma {:induction false} SourcesHold(ss: seq<State>, acts: seq<Action>, n: nat)
    requires IsRun(ss, acts) && n < |ss|
    ensures SourceInv(ss[n].rpc)
  {
    if n > 0 {
      SourcesHold(ss, acts, n - 1);
      PartsHold(ss, acts, n - 1);
      TasksHold(ss, acts, n - 1);
      assert StepAt(ss, acts, n - 1);
      SourceMoves(ss[n - 1], acts[n - 1], ss[n]);
    }
  }

  /** In every run with one call per request, a completion runs the callback of its kind that was given to that very
      call, if one was. */
  lemma OwnCallbackRuns(ss: seq<State>, acts: seq<Action>, n: nat, i: nat)
    requires IsRun(ss, acts) && n < |ss| && R.CalledOnce(ss[n].rpc) && i < |ss[n].rpc.trace|
    ensures var done := ss[n].rpc.trace[i];
      && done.call in ss[n].rpc.specs && ss[n].rpc.specs[done.call].request == done.request
      && var spec := ss[n].rpc.specs[done.call];
      && (done.kind == R.Success ==> done.ran == spec.onSuccess)
      && (done.kind == R.Error ==> done.ran == spec.onError)
      && (done.kind == R.Timeout ==> done.ran == spec.onTimeout)
  {
    SourcesHold(ss, acts, n);
    PartsHold(ss, acts, n);
    assert R.OwnCallbackOk(ss[n].rpc, i) && R.DoneOk(ss[n].rpc, i);
  }

  // ---- A pending call with a timeout cannot be forgotten ----

  ghost predicate IsStoring(s: State, c: R.CallId) {
    c in s.rpc.callers && s.rpc.callers[c].Storing?
  }

  /** The timeout of the call is still to come: its one-shot is stored, or waits in the batch, or its closure is
      about to claim the call. */
  ghost predicate Covered(s: State, c: R.CallId)
    requires c in s.rpc.armed
  {
    || S.StillStored(s.sched, s.rpc.armed[c])
    || S.AwaitsRun(s.sched.phase, s.rpc.armed[c])
    || exists h :: R.ClaimsFor(s.rpc, h, c)
  }

  ghost predicate CoverOk(s: State, c: R.CallId) {
    R.IsEntry(s.rpc, c) && c in s.rpc.armed && !IsStoring(s, c) ==> Covered(s, c)
  }

  lemma CoverKeptRpc(s: State, a: Action, t: State, c: R.CallId)
    requires Next(s, a, t) && a.Rpc? && RpcInv(s.rpc) && CoverOk(s, c)
    ensures CoverOk(t, c)
  {
    R.FieldsChange(s.rpc, a.step);
    assert R.ArmOk(s.rpc, c) && R.AboutPlace(s.rpc, a.step);
    if R.IsEntry(t.rpc, c) && c in t.rpc.armed && !IsStoring(t, c) {
      if R.IsEntry(s.rpc, c) {
        R.StoringKept(s.rpc, a.step, c);
        if h :| R.ClaimsFor(s.rpc, h, c) {
          R.ClaimingStays(s.rpc, a.step, h, c);
          R.SpecsStay(s.rpc, a.step);
          assert R.ClaimsFor(t.rpc, h, c);
        }
      } else {
        R.EntryMade(s.rpc, a.step, c);
      }
    }
  }

  lemma CoverKeptArm(s: State, a: Action, t: State, c: R.CallId)
    requires Next(s, a, t) && a.Arm? && S.Inv(s.sched) && CoverOk(s, c)
    ensures CoverOk(t, c)
  {
    if R.IsEntry(t.rpc, c) && c in t.rpc.armed && !IsStoring(t, c) {
      assert c != a.call && R.IsEntry(s.rpc, c) && c in s.rpc.armed && !IsStoring(s, c);
      if h :| R.ClaimsFor(s.rpc, h, c) {
        assert R.ClaimsFor(t.rpc, h, c);
      }
    }
  }

  lemma CoverKeptStore(s: State, a: Action, t: State, c: R.CallId)
    requires Next(s, a, t) && a.Store? && S.Inv(s.sched) && CoverOk(s, c) && R.ArmOk(s.rpc, a.call)
    ensures CoverOk(t, c)
  {
    if R.IsEntry(t.rpc, c) && c in t.rpc.armed && !IsStoring(t, c) {
      if c == a.call {
        S.StoredByCommit(s.sched, t.sched, s.rpc.armed[c]);
      } else {
        assert R.IsEntry(s.rpc, c) && !IsStoring(s, c);
        if h :| R.ClaimsFor(s.rpc, h, c) {
          assert R.ClaimsFor(t.rpc, h, c);
        }
      }
    }
  }

  lemma CoverKeptRunItem(s: State, a: Action, t: State, c: R.CallId)
    requires Next(s, a, t) && a.RunItem? && S.Inv(s.sched) && CoverOk(s, c)
    requires c in s.rpc.armed ==> OwnOk(s, s.rpc.armed[c]) && BirthOk(s, s.rpc.armed[c]) && R.ArmOk(s.rpc, c)
    ensures CoverOk(t, c)
  {
    var closure :| IsNextItem(s.sched, closure) && RpcStep(s, R.RunItem(a.handler, closure), t);
    if R.IsEntry(t.rpc, c) && c in t.rpc.armed && !IsStoring(t, c) {
      assert R.IsEntry(s.rpc, c) && !IsStoring(s, c);
      assert forall h :: h in s.rpc.handlers ==> !R.ClaimsFor(s.rpc, h, c);
      var task := s.rpc.armed[c];
      if S.StillStored(s.sched, task) {
        S.StoredOrCollected(s.sched, S.RunItem, t.sched, task);
      } else if S.RunsTask(s.sched, S.RunItem, task) {
        assert R.ClaimsFor(t.rpc, a.handler, c);
      } else {
        S.AwaitsUntilRun(s.sched, S.RunItem, t.sched, task);
      }
    }
  }

  /** A handler unschedules its own call's task only, and that call is no longer pending. */
  lemma UnschedulesOwnTask(s: State, h: R.HandlerId, c: R.CallId)
    requires RpcInv(s.rpc) && R.CalledOnce(s.rpc)
    requires h in s.rpc.handlers && s.rpc.handlers[h].at.Unscheduling?
    requires R.IsEntry(s.rpc, c) && c in s.rpc.armed
    ensures s.rpc.handlers[h].at.task != s.rpc.armed[c]
  {
    var rpc := s.rpc;
    assert R.UnscheduleOk(rpc, h) && R.HolderOk(rpc, h) && R.ArmOk(rpc, c) && R.EnteredOk(rpc, c);
    assert R.SameCall(rpc, c, rpc.handlers[h].at.call);
  }

  lemma CoverKeptUnschedule(s: State, a: Action, t: State, c: R.CallId)
    requires Next(s, a, t) && a.Unschedule? && S.Inv(s.sched) && CoverOk(s, c)
    requires R.IsEntry(s.rpc, c) && c in s.rpc.armed ==> s.rpc.handlers[a.handler].at.task != s.rpc.armed[c]
    ensures CoverOk(t, c)
  {
    if R.IsEntry(t.rpc, c) && c in t.rpc.armed && !IsStoring(t, c) {
      assert R.IsEntry(s.rpc, c) && !IsStoring(s, c);
      var task, step := s.rpc.armed[c], S.Remove(s.rpc.handlers[a.handler].at.task);
      if h :| R.ClaimsFor(s.rpc, h, c) {
        assert R.ClaimsFor(t.rpc, h, c);
      } else if S.StillStored(s.sched, task) {
        S.StoredOrCollected(s.sched, step, t.sched, task);
      } else {
        S.AwaitsUntilRun(s.sched, step, t.sched, task);
      }
    }
  }

  lemma CoverKeptScheduler(s: State, a: Action, t: State, c: R.CallId)
    requires Next(s, a, t) && a.Scheduler? && S.Inv(s.sched) && CoverOk(s, c)
    requires c in s.rpc.armed ==> OwnOk(s, s.rpc.armed[c]) && R.ArmOk(s.rpc, c)
    ensures CoverOk(t, c)
  {
    if R.IsEntry(s.rpc, c) && c in s.rpc.armed && !IsStoring(s, c) {
      var task := s.rpc.armed[c];
      if S.StillStored(s.sched, task) {
        S.StoredOrCollected(s.sched, a.foreign, t.sched, task);
      } else if S.AwaitsRun(s.sched.phase, task) {
        S.AwaitsUntilRun(s.sched, a.foreign, t.sched, task);
      }
    }
  }

  lemma CoverKeptJoint(s: State, a: Action, t: State, c: R.CallId)
    requires Next(s, a, t) && !a.Rpc? && S.Inv(s.sched) && CoverOk(s, c)
    requires R.ArmOk(s.rpc, c) && (a.Store? ==> R.ArmOk(s.rpc, a.call))
    requires c in s.rpc.armed ==> OwnOk(s, s.rpc.armed[c]) && BirthOk(s, s.rpc.armed[c])
    requires a.Unschedule? && R.IsEntry(s.rpc, c) && c in s.rpc.armed ==>
      s.rpc.handlers[a.handler].at.task != s.rpc.armed[c]
    ensures CoverOk(t, c)
  {
    match a
    case Arm(_, _) => CoverKeptArm(s, a, t, c);
    case Store(_) => CoverKeptStore(s, a, t, c);
    case RunItem(_) => CoverKeptRunItem(s, a, t, c);
    case Unschedule(_) => CoverKeptUnschedule(s, a, t, c);
    case Scheduler(_) => CoverKeptScheduler(s, a, t, c);
  }

  lemma CoverKept(s: State, a: Action, t: State, c: R.CallId)
    requires Next(s, a, t) && RpcInv(s.rpc) && S.Inv(s.sched) && TaskInv(s) && R.CalledOnce(s.rpc) && CoverOk(s, c)
    ensures CoverOk(t, c)
  {
    if a.Rpc? {
      CoverKeptRpc(s, a, t, c);
    } else {
      assert R.ArmOk(s.rpc, c);
      assert a.Store? ==> R.ArmOk(s.rpc, a.call);
      assert c in s.rpc.armed ==> OwnOk(s, s.rpc.armed[c]) && BirthOk(s, s.rpc.armed[c]);
      if a.Unschedule? && R.IsEntry(s.rpc, c) && c in s.rpc.armed {
        UnschedulesOwnTask(s, a.handler, c);
      }
      CoverKeptJoint(s, a, t, c);
    }
  }

  /** Whatever a request is, it was called at most once up to an earlier point of the run too. */
  lemma {:induction false} CalledOnceBefore(ss: seq<State>, acts: seq<Action>, m: nat, n: nat)
    requires IsRun(ss, acts) && m <= n < |ss| && R.CalledOnce(ss[n].rpc)
    ensures R.CalledOnce(ss[m].rpc)
  {
    if m < n {
      assert StepAt(ss, acts, n - 1);
      SpecsGrow(ss[n - 1], acts[n - 1], ss[n]);
      R.CalledOnceKept(ss[n - 1].rpc, ss[n].rpc);
      CalledOnceBefore(ss, acts, m, n - 1);
    }
  }

  lemma SpecsGrow(s: State, a: Action, t: State)
    requires Next(s, a, t)
    ensures R.SpecsKept(s.rpc, t.rpc)
  {
    var step := RpcPart(s, a, t);
    if step.Some? {
      R.SpecsStay(s.rpc, step.value);
    }
  }

  lemma {:induction false} CoverHolds(ss: seq<State>, acts: seq<Action>, n: nat, c: R.CallId)
    requires IsRun(ss, acts) && n < |ss| && R.CalledOnce(ss[n].rpc)
    ensures CoverOk(ss[n], c)
  {
    if n > 0 {
      CalledOnceBefore(ss, acts, n - 1, n);
      CoverHolds(ss, acts, n - 1, c);
      PartsHold(ss, acts, n - 1);
      TasksHold(ss, acts, n - 1);
      assert StepAt(ss, acts, n - 1);
      CoverKept(ss[n - 1], acts[n - 1], ss[n], c);
    }
  }

  /** In every run with one call per request: once `ScheduleTimeout` has returned, a call that is still pending has
      its timeout to come. */
  lemma PendingTimeoutIsCovered(ss: seq<State>, acts: seq<Action>, n: nat, c: R.CallId)
    requires IsRun(ss, acts) && n < |ss| && R.CalledOnce(ss[n].rpc)
    requires R.IsEntry(ss[n].rpc, c) && c in ss[n].rpc.recorded
    ensures c in ss[n].rpc.armed && Covered(ss[n], c)
    ensures var task := ss[n].rpc.armed[c];
      task in ss[n].sched.born && ss[n].sched.born[task].once
      && ss[n].sched.born[task].callback == R.ClosureOf(ss[n].rpc.specs[c], c)
  {
    PartsHold(ss, acts, n);
    TasksHold(ss, acts, n);
    CoverHolds(ss, acts, n, c);
    assert R.ArmOk(ss[n].rpc, c);
    assert OwnOk(ss[n], ss[n].rpc.armed[c]) && BirthOk(ss[n], ss[n].rpc.armed[c]);
  }

  // ---- An expired call is completed by the batch that collects it ----

  lemma SpentMoves(s: State, a: Action, t: State, task: R.TaskId)
    requires Next(s, a, t) && S.Inv(s.sched) && S.Spent(s.sched, task)
    ensures S.Spent(t.sched, task)
  {
    var step := SchedulerPart(s, a, t);
    if step.Some? {
      S.SpentStays(s.sched, step.value, t.sched, task);
    }
  }

  lemma {:induction false} StaysSpent(ss: seq<State>, acts: seq<Action>, m: nat, n: nat, task: R.TaskId)
    requires IsRun(ss, acts) && m <= n < |ss| && S.Spent(ss[m].sched, task)
    ensures S.Spent(ss[n].sched, task)
  {
    if m < n {
      StaysSpent(ss, acts, m, n - 1, task);
      PartsHold(ss, acts, n - 1);
      assert StepAt(ss, acts, n - 1);
      SpentMoves(ss[n - 1], acts[n - 1], ss[n], task);
    }
  }

  lemma SettledMoves(s: State, a: Action, t: State, c: R.CallId)
    requires Next(s, a, t) && R.PlaceInv(s.rpc) && R.IsSettled(s.rpc, c)
    ensures R.IsSettled(t.rpc, c)
  {
    var step := RpcPart(s, a, t);
    if step.Some? {
      assert R.StageOk(s.rpc, c) && R.AboutPlace(s.rpc, step.value);
      R.SettledStays(s.rpc, step.value, c);
    }
  }

  lemma {:induction false} StaysSettled(ss: seq<State>, acts: seq<Action>, m: nat, n: nat, c: R.CallId)
    requires IsRun(ss, acts) && m <= n < |ss| && R.IsSettled(ss[m].rpc, c)
    ensures R.IsSettled(ss[n].rpc, c)
  {
    if m < n {
      StaysSettled(ss, acts, m, n - 1, c);
      PartsHold(ss, acts, n - 1);
      assert StepAt(ss, acts, n - 1);
      SettledMoves(ss[n - 1], acts[n - 1], ss[n], c);
    }
  }

  /** When the batch that collected the task of a call is erased, the call is past its entry. */
  lemma ErasedMeansSettled(ss: seq<State>, acts: seq<Action>, k: nat, c: R.CallId)
    requires IsRun(ss, acts) && k < |acts| && acts[k] == Scheduler(S.Erase) && R.CalledOnce(ss[k + 1].rpc)
    requires c in ss[k].rpc.armed && !R.BeforeRecord(ss[k].rpc, c) && S.Spent(ss[k].sched, ss[k].rpc.armed[c])
    ensures R.IsSettled(ss[k + 1].rpc, c)
  {
    var t := ss[k + 1];
    StaysSpent(ss, acts, k, k + 1, ss[k].rpc.armed[c]);
    CoverHolds(ss, acts, k + 1, c);
    PartsHold(ss, acts, k + 1);
    assert StepAt(ss, acts, k);
    assert R.ArmOk(t.rpc, c) && R.StageOk(t.rpc, c) && R.EnteredOk(t.rpc, c);
  }

  /** The scheduler thread runs handlers from a batch only. */
  ghost predicate BusyOk(s: State, h: R.HandlerId) {
    h in s.rpc.handlers && s.rpc.handlers[h].onScheduler ==> s.sched.phase.Running?
  }

  lemma BusyKept(s: State, a: Action, t: State, h: R.HandlerId)
    requires Next(s, a, t) && BusyOk(s, h)
    ensures BusyOk(t, h)
  {
    if h in t.rpc.handlers && t.rpc.handlers[h].onScheduler && !a.RunItem? {
      var step := RpcPart(s, a, t);
      if step.Some? {
        R.OnSchedulerKept(s.rpc, step.value, h);
      }
    }
  }

  lemma {:induction false} BusyHolds(ss: seq<State>, acts: seq<Action>, n: nat, h: R.HandlerId)
    requires IsRun(ss, acts) && n < |ss|
    ensures BusyOk(ss[n], h)
  {
    if n > 0 {
      BusyHolds(ss, acts, n - 1, h);
      assert StepAt(ss, acts, n - 1);
      BusyKept(ss[n - 1], acts[n - 1], ss[n], h);
    }
  }

  /** A scan at or past the deadline of a recorded timeout collects its task, unless the call is settled already. */
  lemma DueScanSpends(ss: seq<State>, acts: seq<Action>, j: nat, c: R.CallId)
    requires IsRun(ss, acts) && j < |acts| && acts[j].Scheduler? && acts[j].foreign.Scan? && R.CalledOnce(ss[j].rpc)
    requires c in ss[j].rpc.recorded && R.IsEntry(ss[j].rpc, c)
    requires c in ss[j].rpc.armed && ss[j].rpc.armed[c] in ss[j].sched.born
    requires ss[j].sched.born[ss[j].rpc.armed[c]].due <= acts[j].foreign.now
    ensures S.Spent(ss[j + 1].sched, ss[j].rpc.armed[c])
  {
    var s := ss[j];
    PendingTimeoutIsCovered(ss, acts, j, c);
    PartsHold(ss, acts, j);
    assert StepAt(ss, acts, j);
    assert !s.sched.phase.Running?;
    if h :| R.ClaimsFor(s.rpc, h, c) {
      BusyHolds(ss, acts, j, h);
    }
    assert S.StillStored(s.sched, s.rpc.armed[c]);
    S.SpentByScan(s.sched, acts[j].foreign, ss[j + 1].sched, s.rpc.armed[c]);
  }

  lemma RecordedMoves(s: State, a: Action, t: State, c: R.CallId)
    requires Next(s, a, t) && RpcInv(s.rpc) && c in s.rpc.recorded && c in s.rpc.armed
    ensures c in t.rpc.recorded && c in t.rpc.armed && t.rpc.armed[c] == s.rpc.armed[c]
  {
    var step := RpcPart(s, a, t);
    if step.Some? {
      assert R.ArmOk(s.rpc, c);
      R.RecordedKept(s.rpc, step.value, c);
    }
  }

  predicate IsRecordedWith(s: R.State, c: R.CallId, task: R.TaskId) {
    c in s.recorded && c in s.armed && s.armed[c] == task
  }

  lemma RecordedStep(ss: seq<State>, acts: seq<Action>, n: nat, c: R.CallId, task: R.TaskId)
    requires IsRun(ss, acts) && n < |acts| && IsRecordedWith(ss[n].rpc, c, task)
    ensures IsRecordedWith(ss[n + 1].rpc, c, task)
  {
    PartsHold(ss, acts, n);
    assert StepAt(ss, acts, n);
    RecordedMoves(ss[n], acts[n], ss[n + 1], c);
  }

  lemma {:induction false} StaysRecorded(ss: seq<State>, acts: seq<Action>, m: nat, n: nat, c: R.CallId, task: R.TaskId)
    requires IsRun(ss, acts) && m <= n < |ss| && IsRecordedWith(ss[m].rpc, c, task)
    ensures IsRecordedWith(ss[n].rpc, c, task)
  {
    if m < n {
      StaysRecorded(ss, acts, m, n - 1, c, task);
      RecordedStep(ss, acts, n - 1, c, task);
    }
  }

  /** A call whose entry is not pending any more, though it has recorded its timeout, is settled. */
  lemma RecordedIsSettled(s: R.State, c: R.CallId)
    requires RpcInv(s) && c in s.recorded && !R.IsEntry(s, c)
    ensures R.IsSettled(s, c)
  {
    assert R.ArmOk(s, c) && R.StageOk(s, c) && R.EnteredOk(s, c);
  }

  /** When a scan at or past the due time of a recorded task has its batch run and erased, the call is settled. */
  lemma DueTaskCompletes(ss: seq<State>, acts: seq<Action>, j: nat, k: nat, n: nat, c: R.CallId)
    requires IsRun(ss, acts) && j < k < n < |ss| && R.CalledOnce(ss[n].rpc)
    requires acts[j].Scheduler? && acts[j].foreign.Scan? && acts[k] == Scheduler(S.Erase)
    requires c in ss[j].rpc.recorded && c in ss[j].rpc.armed && ss[j].rpc.armed[c] in ss[j].sched.born
    requires ss[j].sched.born[ss[j].rpc.armed[c]].due <= acts[j].foreign.now
    ensures R.IsSettled(ss[n].rpc, c)
  {
    CalledOnceBefore(ss, acts, j, n);
    CalledOnceBefore(ss, acts, k + 1, n);
    PartsHold(ss, acts, j);
    if R.IsEntry(ss[j].rpc, c) {
      DueScanSpends(ss, acts, j, c);
      StaysSpent(ss, acts, j + 1, k, ss[j].rpc.armed[c]);
      StaysRecorded(ss, acts, j, k, c, ss[j].rpc.armed[c]);
      PartsHold(ss, acts, k);
      assert R.ArmOk(ss[k].rpc, c);
      ErasedMeansSettled(ss, acts, k, c);
      StaysSettled(ss, acts, k + 1, n, c);
    } else {
      RecordedIsSettled(ss[j].rpc, c);
      StaysSettled(ss, acts, j, n, c);
    }
  }

  // ---- Deadlines ----

  /** When the duration that was asked for is over, or 15 ms if it is less. */
  function Deadline(now: Scheduling.Time, duration: int): Scheduling.Time {
    now + if duration <= 15_000_000 then 15_000_000 else duration
  }

  ghost predicate IsDueAt(s: State, c: R.CallId, due: Scheduling.Time) {
    c in s.rpc.armed && s.rpc.armed[c] in s.sched.born && s.sched.born[s.rpc.armed[c]].due == due
  }

  lemma DueStays(s: State, a: Action, t: State, c: R.CallId, due: Scheduling.Time)
    requires Next(s, a, t) && RpcInv(s.rpc) && S.BornInv(s.sched) && IsDueAt(s, c, due)
    ensures IsDueAt(t, c, due)
  {
    assert R.ArmOk(s.rpc, c);
    var rpc := RpcPart(s, a, t);
    var sched := SchedulerPart(s, a, t);
    if rpc.Some? {
      R.FieldsChange(s.rpc, rpc.value);
    }
    if sched.Some? {
      S.BornGrows(s.sched, sched.value, t.sched, s.rpc.armed[c]);
    }
  }

  /** In every run the task of a call is due when the duration the call was given is over, or 15 ms if it is less,
      counted from the moment the call asked for it. */
  lemma {:induction false} DeadlineExactly(ss: seq<State>, acts: seq<Action>, n: nat, c: R.CallId) returns (i: nat)
    requires IsRun(ss, acts) && n < |ss| && c in ss[n].rpc.armed
    ensures i < n && acts[i].Arm? && acts[i].call == c
    ensures c in ss[i].rpc.specs && ss[i].rpc.specs[c].timeout.Some?
    ensures ss[n].rpc.armed[c] in ss[n].sched.born
    ensures var duration := ss[i].rpc.specs[c].timeout.value;
      ss[n].sched.born[ss[n].rpc.armed[c]].due ==
        acts[i].now + if duration <= 15_000_000 then 15_000_000 else duration
  {
    assert n > 0;
    var s, a, t := ss[n - 1], acts[n - 1], ss[n];
    assert StepAt(ss, acts, n - 1);
    PartsHold(ss, acts, n - 1);
    if c in s.rpc.armed {
      i := DeadlineExactly(ss, acts, n - 1, c);
      DueStays(s, a, t, c, s.sched.born[s.rpc.armed[c]].due);
    } else {
      i := n - 1;
      NewlyArmed(s, a, t, c);
    }
  }

  lemma NewlyArmed(s: State, a: Action, t: State, c: R.CallId)
    requires Next(s, a, t) && c !in s.rpc.armed && c in t.rpc.armed
    ensures a.Arm? && a.call == c && c in s.rpc.specs && s.rpc.specs[c].timeout.Some?
    ensures IsDueAt(t, c, Deadline(a.now, s.rpc.specs[c].timeout.value))
  {
    var step := RpcPart(s, a, t);
    if step.Some? {
      R.FieldsChange(s.rpc, step.value);
    }
  }

  lemma DueStep(ss: seq<State>, acts: seq<Action>, n: nat, c: R.CallId, due: Scheduling.Time)
    requires IsRun(ss, acts) && n < |acts| && IsDueAt(ss[n], c, due)
    ensures IsDueAt(ss[n + 1], c, due)
  {
    PartsHold(ss, acts, n);
    assert StepAt(ss, acts, n);
    DueStays(ss[n], acts[n], ss[n + 1], c, due);
  }

  lemma {:induction false} DueHolds(
      ss: seq<State>, acts: seq<Action>, m: nat, n: nat, c: R.CallId, due: Scheduling.Time)
    requires IsRun(ss, acts) && m <= n < |ss| && IsDueAt(ss[m], c, due)
    ensures IsDueAt(ss[n], c, due)
  {
    if m < n {
      DueHolds(ss, acts, m, n - 1, c, due);
      DueStep(ss, acts, n - 1, c, due);
    }
  }

  lemma DueOnceArmed(ss: seq<State>, acts: seq<Action>, i: nat)
    requires IsRun(ss, acts) && i < |acts| && acts[i].Arm?
    ensures var s, c := ss[i].rpc, acts[i].call;
      c in s.specs && s.specs[c].timeout.Some? && IsDueAt(ss[i + 1], c, Deadline(acts[i].now, s.specs[c].timeout.value))
  {
    PartsHold(ss, acts, i);
    assert StepAt(ss, acts, i) && R.ArmOk(ss[i].rpc, acts[i].call);
    NewlyArmed(ss[i], acts[i], ss[i + 1], acts[i].call);
  }

  /** With one call per request: when a call has asked for its timeout in step `i` and recorded it, and then the batch
      of a scan at or past the deadline has been run and erased, the request is not pending, then or ever after; and
      unless a handler is at it, the call has completed. */
  lemma ExpiredCallCompletes(ss: seq<State>, acts: seq<Action>, i: nat, j: nat, k: nat, n: nat, c: R.CallId)
    requires IsRun(ss, acts) && i < j < k < n < |ss| && R.CalledOnce(ss[n].rpc)
    requires acts[i].Arm? && acts[i].call == c && c in ss[j].rpc.recorded
    requires acts[j].Scheduler? && acts[j].foreign.Scan? && acts[k] == Scheduler(S.Erase)
    requires c in ss[i].rpc.specs && ss[i].rpc.specs[c].timeout.Some?
    requires var duration := ss[i].rpc.specs[c].timeout.value;
      acts[i].now + (if duration <= 15_000_000 then 15_000_000 else duration) <= acts[j].foreign.now
    ensures c in ss[n].rpc.specs && ss[n].rpc.specs[c].request !in ss[n].rpc.calls
    ensures var s := ss[n].rpc;
      || (exists h :: h in s.handlers && R.PastClaim(s.handlers[h]) && s.handlers[h].at.call == c)
      || (exists m :: 0 <= m < |s.trace| && s.trace[m].call == c)
  {
    DueOnceArmed(ss, acts, i);
    DueHolds(ss, acts, i + 1, j, c, Deadline(acts[i].now, ss[i].rpc.specs[c].timeout.value));
    DueTaskCompletes(ss, acts, j, k, n, c);
    PartsHold(ss, acts, n);
    SettledIsNotPending(ss[n].rpc, c);
    CompletionsHold(ss, acts, n, c);
    R.SettledExactly(ss[n].rpc, c);
  }

  /** A call that has ended is in the trace; with one call per request, none was rejected. */
  ghost predicate CompletionOk(s: R.State, c: R.CallId) {
    R.FinishedOk(s, c) && (c in s.place ==> s.place[c] != R.Rejected)
  }

  lemma CompletionMoves(s: State, a: Action, t: State, c: R.CallId)
    requires Next(s, a, t) && RpcInv(s.rpc) && R.CalledOnce(s.rpc) && CompletionOk(s.rpc, c)
    ensures CompletionOk(t.rpc, c)
  {
    var step := RpcPart(s, a, t);
    if step.Some? {
      R.FinishedKept(s.rpc, step.value, c);
      if c in t.rpc.place && t.rpc.place[c] == R.Rejected {
        R.RejectedOnly(s.rpc, step.value, c);
      }
      if step.value.Reject? {
        R.NeverRejected(s.rpc, step.value.call);
      }
    }
  }

  lemma {:induction false} CompletionsHold(ss: seq<State>, acts: seq<Action>, n: nat, c: R.CallId)
    requires IsRun(ss, acts) && n < |ss| && R.CalledOnce(ss[n].rpc)
    ensures CompletionOk(ss[n].rpc, c)
  {
    if n > 0 {
      CalledOnceBefore(ss, acts, n - 1, n);
      CompletionsHold(ss, acts, n - 1, c);
      PartsHold(ss, acts, n - 1);
      assert StepAt(ss, acts, n - 1);
      CompletionMoves(ss[n - 1], acts[n - 1], ss[n], c);
    }
  }

  /** With one call per request: a call that has made its entry is pending, held by a handler past its claim, or has
      completed; so none is lost. */
  lemma NoCallIsLost(ss: seq<State>, acts: seq<Action>, n: nat, c: R.CallId)
    requires IsRun(ss, acts) && n < |ss| && R.CalledOnce(ss[n].rpc) && c in ss[n].rpc.specs
    requires c in ss[n].rpc.callers ==> !R.NotEntered(ss[n].rpc.callers[c])
    ensures var s := ss[n].rpc;
      || R.IsEntry(s, c)
      || (exists h :: h in s.handlers && R.PastClaim(s.handlers[h]) && s.handlers[h].at.call == c)
      || (exists i :: 0 <= i < |s.trace| && s.trace[i].call == c)
  {
    PartsHold(ss, acts, n);
    CompletionsHold(ss, acts, n, c);
    var s := ss[n].rpc;
    assert R.StageOk(s, c) && R.EnteredOk(s, c);
    if !R.IsEntry(s, c) {
      R.SettledExactly(s, c);
    }
  }

  // ---- A cancelled timeout is gone ----

  lemma {:induction false} GoneStays(ss: seq<State>, acts: seq<Action>, m: nat, n: nat, task: R.TaskId)
    requires IsRun(ss, acts) && m <= n < |ss| && S.Gone(ss[m].sched, task)
    ensures S.Gone(ss[n].sched, task)
  {
    if m < n {
      GoneStays(ss, acts, m, n - 1, task);
      PartsHold(ss, acts, n - 1);
      assert StepAt(ss, acts, n - 1);
      var step := SchedulerPart(ss[n - 1], acts[n - 1], ss[n]);
      if step.Some? {
        S.GoneKept(ss[n - 1].sched, step.value, ss[n].sched, task);
      }
    }
  }

  lemma UnscheduleRemoves(s: State, h: R.HandlerId, t: State)
    requires Next(s, Unschedule(h), t) && RpcInv(s.rpc) && S.Inv(s.sched) && TaskInv(s)
    ensures h in s.rpc.handlers && s.rpc.handlers[h].at.Unscheduling?
    ensures S.Gone(t.sched, s.rpc.handlers[h].at.task)
    ensures var call := s.rpc.handlers[h].at.call;
      R.CalledOnce(s.rpc) ==> call in s.rpc.armed && s.rpc.armed[call] == s.rpc.handlers[h].at.task
  {
    var task := s.rpc.handlers[h].at.task;
    assert R.UnscheduleOk(s.rpc, h) && R.HolderOk(s.rpc, h);
    var c := s.rpc.owner[task];
    assert R.ArmOk(s.rpc, c) && StoreOk(s, c) && OwnOk(s, task);
    assert R.CalledOnce(s.rpc) ==> R.SameCall(s.rpc, c, s.rpc.handlers[h].at.call);
  }

  /** When `CancelTimeout` has removed a task, the scheduler does not have it any more, then or ever after, so no later
      scan collects it; with one call per request it is the task of the handler's own call. */
  lemma CancelledTaskIsGone(ss: seq<State>, acts: seq<Action>, i: nat, n: nat)
    requires IsRun(ss, acts) && i < n < |ss| && acts[i].Unschedule?
    ensures acts[i].handler in ss[i].rpc.handlers && ss[i].rpc.handlers[acts[i].handler].at.Unscheduling?
    ensures var at := ss[i].rpc.handlers[acts[i].handler].at;
      && at.task !in ss[n].sched.tasks && at.task !in ss[n].sched.adding
      && (R.CalledOnce(ss[i].rpc) ==> at.call in ss[i].rpc.armed && ss[i].rpc.armed[at.call] == at.task)
  {
    PartsHold(ss, acts, i);
    TasksHold(ss, acts, i);
    assert StepAt(ss, acts, i);
    UnscheduleRemoves(ss[i], acts[i].handler, ss[i + 1]);
    GoneStays(ss, acts, i + 1, n, ss[i].rpc.handlers[acts[i].handler].at.task);
  }

  // ---- Prepared requests ----

  lemma RequestMoves(s: State, a: Action, t: State)
    requires Next(s, a, t)
    ensures t.rpc.nextRequest == s.rpc.nextRequest + if a == Rpc(R.Prepare) then 1 else 0
  {
    var step := RpcPart(s, a, t);
    if step.Some? {
      R.FieldsChange(s.rpc, step.value);
    }
  }

  lemma {:induction false} RequestsGrow(ss: seq<State>, acts: seq<Action>, m: nat, n: nat)
    requires IsRun(ss, acts) && m <= n < |ss|
    ensures ss[m].rpc.nextRequest <= ss[n].rpc.nextRequest
  {
    if m < n {
      RequestsGrow(ss, acts, m, n - 1);
      assert StepAt(ss, acts, n - 1);
      RequestMoves(ss[n - 1], acts[n - 1], ss[n]);
    }
  }

  /** Two steps of `Prepare` hand out two ids. */
  lemma PreparedIdsDiffer(ss: seq<State>, acts: seq<Action>, i: nat, j: nat)
    requires IsRun(ss, acts) && i < j < |acts| && acts[i] == Rpc(R.Prepare) && acts[j] == Rpc(R.Prepare)
    ensures ss[i].rpc.nextRequest < ss[j].rpc.nextRequest
  {
    assert StepAt(ss, acts, i);
    RequestMoves(ss[i], acts[i], ss[i + 1]);
    RequestsGrow(ss, acts, i + 1, j);
  }

  lemma SettledIsNotPending(s: R.State, c: R.CallId)
    requires R.PlaceInv(s) && R.CalledOnce(s) && R.IsSettled(s, c)
    ensures c in s.specs && s.specs[c].request !in s.calls
  {
    assert R.StageOk(s, c) && R.EnteredOk(s, c);
    var r := s.specs[c].request;
    assert R.EntryOk(s, r);
    assert r in s.calls ==> R.SameCall(s, c, s.calls[r].call);
  }

  // ---- The timeout table ----

  lemma {:induction false} AgreementHolds(ss: seq<State>, acts: seq<Action>, n: nat)
    requires IsRun(ss, acts) && n < |ss| && R.CalledOnce(ss[n].rpc)
    ensures R.AgreeInv(ss[n].rpc)
  {
    if n == 0 {
      InitialRpcInv();
    } else {
      CalledOnceBefore(ss, acts, n - 1, n);
      AgreementHolds(ss, acts, n - 1);
      PartsHold(ss, acts, n - 1);
      assert StepAt(ss, acts, n - 1);
      RpcPartKept(ss[n - 1], acts[n - 1], ss[n]);
    }
  }

  ghost predicate TableAgrees(s: R.State) {
    forall r :: r in s.timeouts <==> R.IsPendingWithTimeout(s, r)
  }

  /** In this step `CancelTimeout` finds nothing, because the call it is for has made its entry and has yet to record
      its timeout. */
  ghost predicate OvertakesAt(ss: seq<State>, acts: seq<Action>, i: nat)
    requires i < |acts| < |ss|
  {
    acts[i].Rpc? && R.Overtakes(ss[i].rpc, acts[i].step)
  }

  lemma OvertakenMoves(s: State, a: Action, t: State)
    requires Next(s, a, t)
    ensures s.rpc.overtaken <= t.rpc.overtaken
    ensures t.rpc.overtaken == {} <==> s.rpc.overtaken == {} && !(a.Rpc? && R.Overtakes(s.rpc, a.step))
  {
    var step := RpcPart(s, a, t);
    if step.Some? {
      R.FieldsChange(s.rpc, step.value);
    }
  }

  lemma {:induction false} OvertakenOnRun(ss: seq<State>, acts: seq<Action>, n: nat)
    requires IsRun(ss, acts) && n < |ss|
    ensures ss[n].rpc.overtaken == {} <==> forall i :: 0 <= i < n ==> !OvertakesAt(ss, acts, i)
  {
    if n > 0 {
      OvertakenOnRun(ss, acts, n - 1);
      assert StepAt(ss, acts, n - 1);
      OvertakenMoves(ss[n - 1], acts[n - 1], ss[n]);
      assert ss[n].rpc.overtaken == {} <==> ss[n - 1].rpc.overtaken == {} && !OvertakesAt(ss, acts, n - 1);
    }
  }

  /** In every run with one call per request, whenever all is quiet: the keys of the timeout table are exactly the
      pending requests that set a timeout if and only if no `CancelTimeout` has overtaken its `ScheduleTimeout`, that
      is, looked for the timeout of a call that had made its entry but not recorded it yet. */
  lemma TimeoutTableExactly(ss: seq<State>, acts: seq<Action>, n: nat)
    requires IsRun(ss, acts) && n < |ss| && R.CalledOnce(ss[n].rpc) && R.Quiet(ss[n].rpc)
    ensures TableAgrees(ss[n].rpc) <==> forall i :: 0 <= i < n ==> !OvertakesAt(ss, acts, i)
  {
    PartsHold(ss, acts, n);
    OvertakenOnRun(ss, acts, n);
    AgreementHolds(ss, acts, n);
    R.TimeoutTableAgreesExactly(ss[n].rpc);
  }

  predicate NoneRecording(s: R.State) {
    forall c :: c in s.callers ==> !s.callers[c].Recording?
  }

  /** No response is handled before its call has recorded its timeout, if it has one, and no scan comes between the two
      halves of `ScheduleTimeout`. */
  ghost predicate IsOrderly(s: State, a: Action) {
    && (a.Rpc? && a.step.Deliver? && a.step.slot in s.rpc.slots ==> R.Passed(s.rpc, s.rpc.slots[a.step.slot].call))
    && (a.Scheduler? && a.foreign.Scan? ==> NoneRecording(s.rpc))
  }

  ghost predicate OrderlyAt(ss: seq<State>, acts: seq<Action>, i: nat)
    requires i < |acts| < |ss|
  {
    IsOrderly(ss[i], acts[i])
  }

  ghost predicate IsOrderlyRun(ss: seq<State>, acts: seq<Action>) {
    IsRun(ss, acts) && forall i :: 0 <= i < |acts| ==> OrderlyAt(ss, acts, i)
  }

  /** The task of a call that has not recorded it yet is in no batch. */
  ghost predicate ItemOk(s: State, c: R.CallId) {
    c in s.rpc.callers && s.rpc.callers[c].Recording? ==> !S.AwaitsRun(s.sched.phase, s.rpc.callers[c].task)
  }

  ghost predicate LateInv(s: R.State) {
    s.overtaken == {} && forall h :: R.LateOk(s, h)
  }

  lemma RecordingMoves(s: State, a: Action, t: State, c: R.CallId)
    requires Next(s, a, t) && c in t.rpc.callers && t.rpc.callers[c].Recording?
    ensures c in s.rpc.callers
    ensures (a == Store(c) && s.rpc.callers[c] == R.Storing(t.rpc.callers[c].task)) ||
      s.rpc.callers[c] == t.rpc.callers[c]
  {
    var step := RpcPart(s, a, t);
    if step.Some? {
      R.RecordingReached(s.rpc, step.value, c);
    }
  }

  /** A task that waits in the batch after a step other than a scan did so before it, and is not one just stored. */
  lemma AwaitedEarlier(s: State, a: Action, t: State, task: R.TaskId)
    requires Next(s, a, t) && S.Inv(s.sched) && S.AwaitsRun(t.sched.phase, task)
    requires !(a.Scheduler? && a.foreign.Scan?)
    ensures S.AwaitsRun(s.sched.phase, task)
    ensures a.Store? ==> s.rpc.callers[a.call].task != task
  {
    var step := SchedulerPart(s, a, t);
    if step.Some? {
      S.AwaitedBefore(s.sched, step.value, t.sched, task);
    }
  }

  lemma ItemKept(s: State, a: Action, t: State, c: R.CallId)
    requires Next(s, a, t) && IsOrderly(s, a) && S.Inv(s.sched) && ItemOk(s, c)
    ensures ItemOk(t, c)
  {
    if c in t.rpc.callers && t.rpc.callers[c].Recording? && S.AwaitsRun(t.sched.phase, t.rpc.callers[c].task) {
      RecordingMoves(s, a, t, c);
      AwaitedEarlier(s, a, t, t.rpc.callers[c].task);
    }
  }

  /** In an orderly run the scheduler thread starts the timeouts of calls that have recorded them. */
  lemma StepStartsLate(s: State, a: Action, t: State, step: R.Action)
    requires Next(s, a, t) && IsOrderly(s, a) && RpcInv(s.rpc) && S.Inv(s.sched) && TaskInv(s)
    requires R.Enabled(s.rpc, step) && IsPartOf(s, step, a)
    requires step.RunItem? ==> ItemOk(s, step.closure.call)
    ensures R.StartsLate(s.rpc, step)
  {
    if step.RunItem? {
      var c, task := step.closure.call, s.sched.phase.batch.fired[s.sched.phase.next];
      assert S.AwaitsRun(s.sched.phase, task);
      assert BirthOk(s, task) && StoreOk(s, c) && R.ArmOk(s.rpc, c);
    }
  }

  lemma LateStep(s: R.State, step: R.Action)
    requires RpcInv(s) && R.CalledOnce(s) && SourceInv(s) && LateInv(s)
    requires R.Enabled(s, step) && R.StartsLate(s, step)
    ensures LateInv(R.Apply(s, step))
  {
    assert step.CancelNothing? ==> R.SourceOk(s, step.handler) && R.LateOk(s, step.handler);
    R.NoneOvertaken(s, step);
    forall h ensures R.LateOk(R.Apply(s, step), h) {
      assert R.LateOk(s, h);
      R.LateKept(s, step, h);
    }
  }

  lemma LateMoves(s: State, a: Action, t: State)
    requires Next(s, a, t) && IsOrderly(s, a) && RpcInv(s.rpc) && S.Inv(s.sched) && TaskInv(s) && R.CalledOnce(s.rpc)
    requires SourceInv(s.rpc) && LateInv(s.rpc) && forall c :: ItemOk(s, c)
    ensures LateInv(t.rpc)
  {
    var step := RpcPart(s, a, t);
    if step.Some? {
      assert step.value.RunItem? ==> ItemOk(s, step.value.closure.call);
      StepStartsLate(s, a, t, step.value);
      LateStep(s.rpc, step.value);
    }
  }

  ghost predicate AllInv(s: State) {
    RpcInv(s.rpc) && S.Inv(s.sched) && TaskInv(s) && SourceInv(s.rpc)
  }

  ghost predicate OrderlyInv(s: State) {
    LateInv(s.rpc) && forall c :: ItemOk(s, c)
  }

  lemma OrderlyMoves(s: State, a: Action, t: State)
    requires Next(s, a, t) && IsOrderly(s, a) && AllInv(s) && R.CalledOnce(s.rpc) && OrderlyInv(s)
    ensures OrderlyInv(t)
  {
    LateMoves(s, a, t);
    forall c ensures ItemOk(t, c) {
      assert ItemOk(s, c);
      ItemKept(s, a, t, c);
    }
  }

  lemma OrderlyStep(ss: seq<State>, acts: seq<Action>, n: nat)
    requires IsOrderlyRun(ss, acts) && n < |acts| && R.CalledOnce(ss[n].rpc) && OrderlyInv(ss[n])
    ensures OrderlyInv(ss[n + 1])
  {
    AllHold(ss, acts, n);
    assert StepAt(ss, acts, n) && OrderlyAt(ss, acts, n);
    OrderlyMoves(ss[n], acts[n], ss[n + 1]);
  }

  lemma {:induction false} OrderlyHolds(ss: seq<State>, acts: seq<Action>, n: nat)
    requires IsOrderlyRun(ss, acts) && n < |ss| && R.CalledOnce(ss[n].rpc)
    ensures OrderlyInv(ss[n])
  {
    if n > 0 {
      CalledOnceBefore(ss, acts, n - 1, n);
      OrderlyHolds(ss, acts, n - 1);
      OrderlyStep(ss, acts, n - 1);
    }
  }

  lemma AllHold(ss: seq<State>, acts: seq<Action>, n: nat)
    requires IsRun(ss, acts) && n < |ss|
    ensures AllInv(ss[n])
  {
    PartsHold(ss, acts, n);
    TasksHold(ss, acts, n);
    SourcesHold(ss, acts, n);
  }

  /** In every orderly run with one call per request, whenever all is quiet the timeout table holds exactly the
      pending requests that set a timeout, and no two of them share a task. */
  lemma TimeoutTableAgreement(ss: seq<State>, acts: seq<Action>, n: nat, q: R.RequestId, r: R.RequestId)
    requires IsOrderlyRun(ss, acts) && n < |ss| && R.CalledOnce(ss[n].rpc) && R.Quiet(ss[n].rpc)
    ensures var s := ss[n].rpc;
      && (r in s.timeouts <==> R.IsPendingWithTimeout(s, r))
      && (q in s.timeouts && r in s.timeouts && s.timeouts[q] == s.timeouts[r] ==> q == r)
  {
    OrderlyHolds(ss, acts, n);
    OvertakenOnRun(ss, acts, n);
    TimeoutTableExactly(ss, acts, n);
    PartsHold(ss, acts, n);
    if q in ss[n].rpc.timeouts && r in ss[n].rpc.timeouts && ss[n].rpc.timeouts[q] == ss[n].rpc.timeouts[r] {
      R.TimeoutTableIsInjective(ss[n].rpc, q, r);
    }
  }

  lemma {:induction false} StaysOvertaken(ss: seq<State>, acts: seq<Action>, m: nat, n: nat, c: R.CallId)
    requires IsRun(ss, acts) && m <= n < |ss| && c in ss[m].rpc.overtaken
    ensures c in ss[n].rpc.overtaken
  {
    if m < n {
      StaysOvertaken(ss, acts, m, n - 1, c);
      assert StepAt(ss, acts, n - 1);
      OvertakenMoves(ss[n - 1], acts[n - 1], ss[n]);
    }
  }

  /** An overtaken call leaves a stale entry: from the moment it has recorded its timeout its request is in the
      table, at every later point of every run with one call per request, though it is not pending. */
  lemma StaleEntryStays(ss: seq<State>, acts: seq<Action>, m: nat, n: nat, c: R.CallId)
    requires IsRun(ss, acts) && m <= n < |ss| && R.CalledOnce(ss[n].rpc)
    requires c in ss[m].rpc.overtaken && c in ss[m].rpc.recorded
    ensures c in ss[n].rpc.specs
    ensures var r := ss[n].rpc.specs[c].request; r in ss[n].rpc.timeouts && r !in ss[n].rpc.calls
  {
    PartsHold(ss, acts, m);
    assert R.ArmOk(ss[m].rpc, c);
    StaysOvertaken(ss, acts, m, n, c);
    StaysRecorded(ss, acts, m, n, c, ss[m].rpc.armed[c]);
    PartsHold(ss, acts, n);
    AgreementHolds(ss, acts, n);
    var s := ss[n].rpc;
    assert R.OvertakenOk(s, c) && R.AgreeOk(s, c) && R.ArmOk(s, c) && R.StageOk(s, c) && R.EnteredOk(s, c);
    RecordedIsSettled(s, c);
    SettledIsNotPending(s, c);
  }

  // ---- Nothing in the joint steps blocks ----

  /** A call that is to schedule its timeout can always do so: the id the scheduler hands out is new to the RPC
      tables, and the task it stores is one that is being added. */
  lemma ScheduleNeverBlocks(ss: seq<State>, acts: seq<Action>, n: nat, c: R.CallId, now: Scheduling.Time)
    requires IsRun(ss, acts) && n < |ss| && now >= ss[n].sched.clock && c in ss[n].rpc.callers
    ensures ss[n].rpc.callers[c].Arming? ==> exists t :: Next(ss[n], Arm(c, now), t)
    ensures ss[n].rpc.callers[c].Storing? ==> exists t :: Next(ss[n], Store(c), t)
  {
    var s := ss[n];
    PartsHold(ss, acts, n);
    TasksHold(ss, acts, n);
    assert R.StageOk(s.rpc, c) && R.TimeoutOk(s.rpc, c) && R.ArmOk(s.rpc, c) && StoreOk(s, c);
    assert OwnOk(s, s.sched.nextId);
    if s.rpc.callers[c].Arming? {
      var begin := S.Begin(now, s.rpc.specs[c].timeout.value, R.ClosureOf(s.rpc.specs[c], c), true);
      var t := State(R.Apply(s.rpc, R.Arm(c, s.sched.nextId)), S.Apply(s.sched, begin));
      assert Next(s, Arm(c, now), t);
    } else if s.rpc.callers[c].Storing? {
      var t := State(R.Apply(s.rpc, R.Store(c)), S.Apply(s.sched, S.Commit(s.rpc.callers[c].task)));
      assert Next(s, Store(c), t);
    }
  }
}
