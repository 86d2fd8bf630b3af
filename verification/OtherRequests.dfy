/**
 What an emission leaves alone: every pending request other than its own.
 */
module OtherRequests {
  import opened Wrappers
  import opened RpcRouting
  import R = RpcTables
  import P = RpcProtocol

  /** The handler that a step of `RpcProtocol` is about. */
  function HandlerOf(step: P.Action): Option<R.HandlerId> {
    match step
    case Rpc(a) => R.MovedBy(a)
    case RunItem(h) => Some(h)
    case Unschedule(h) => Some(h)
    case _ => None
  }

  /** A step of the emission, or of the handler it waits for. */
  predicate IsStepOf(s: State, a: Action, e: EmissionId) {
    match a
    case Joint(step) => e in s.emissions && s.emissions[e].running.Some? && HandlerOf(step) == s.emissions[e].running
    case _ => a.id == e
  }

  /** The request keeps its entry, both slots and its timeout. */
  predicate KeepsTables(s: R.State, t: R.State, q: R.RequestId) {
    && q in s.calls && q in t.calls && t.calls[q] == s.calls[q]
    && KeepsSlot(s, t, s.calls[q].success) && KeepsSlot(s, t, s.calls[q].error)
    && (q in t.timeouts <==> q in s.timeouts) && (q in s.timeouts ==> t.timeouts[q] == s.timeouts[q])
  }

  predicate KeepsSlot(s: R.State, t: R.State, x: R.SlotId) {
    x in s.slots && x in t.slots && t.slots[x] == s.slots[x]
  }

  /** ... and the call that made the entry its task, in the scheduler's table and in the batch. */
  ghost predicate KeepsTask(s: P.State, t: P.State, c: R.CallId) {
    && (c in t.rpc.armed <==> c in s.rpc.armed)
    && (c in s.rpc.armed ==>
          var task := s.rpc.armed[c];
          && t.rpc.armed[c] == task && (task in t.sched.tasks <==> task in s.sched.tasks)
          && (task in s.sched.tasks ==> t.sched.tasks[task] == s.sched.tasks[task]))
    && t.sched.phase == s.sched.phase
  }

  ghost predicate Untouched(s: P.State, t: P.State, q: R.RequestId) {
    KeepsTables(s.rpc, t.rpc, q) && KeepsTask(s, t, s.rpc.calls[q].call)
  }

  /** A claim frees the slots of its own entry. */
  lemma ClaimSpares(s: R.State, h: R.HandlerId, q: R.RequestId)
    requires P.RpcInv(s) && R.Enabled(s, R.Claim(h)) && s.handlers[h].request != q && q in s.calls
    ensures KeepsTables(s, R.Apply(s, R.Claim(h)), q)
  {
    R.EntryHoldsBoth(s, q);
    R.EntryHoldsBoth(s, s.handlers[h].request);
  }

  lemma HandlerSpares(s: R.State, a: R.Action, h: R.HandlerId, q: R.RequestId)
    requires P.RpcInv(s) && R.Enabled(s, a) && R.MovedBy(a) == Some(h) && q in s.calls
    requires !a.RunItem? && (!a.Deliver? ==> s.handlers[h].request != q)
    ensures KeepsTables(s, R.Apply(s, a), q)
  {
    R.EntryHoldsBoth(s, q);
    if a.Claim? {
      ClaimSpares(s, h, q);
    }
  }

  /** The task a handler unschedules is one of its own request. */
  lemma UnscheduleSpares(s: P.State, h: R.HandlerId, t: P.State, q: R.RequestId)
    requires P.RpcInv(s.rpc) && P.Next(s, P.Unschedule(h), t) && s.rpc.handlers[h].request != q && q in s.rpc.calls
    ensures KeepsTask(s, t, s.rpc.calls[q].call)
  {
    R.FieldsChange(s.rpc, R.Unschedule(h));
    assert R.UnscheduleOk(s.rpc, h) && R.EntryOk(s.rpc, q) && R.ArmOk(s.rpc, s.rpc.calls[q].call);
  }

  lemma RpcSpares(s: P.State, a: R.Action, t: P.State, h: R.HandlerId, q: R.RequestId)
    requires P.RpcInv(s.rpc) && P.Next(s, P.Rpc(a), t) && R.MovedBy(a) == Some(h) && q in s.rpc.calls
    requires !a.Deliver? ==> s.rpc.handlers[h].request != q
    ensures Untouched(s, t, q)
  {
    HandlerSpares(s.rpc, a, h, q);
    R.FieldsChange(s.rpc, a);
  }

  /** A step that starts a handler for a message, or one of a handler whose request is another one. */
  predicate IsApartFrom(s: P.State, step: P.Action, q: R.RequestId) {
    && HandlerOf(step).Some? && !step.RunItem?
    && var h := HandlerOf(step).value;
    (step.Rpc? && step.step.Deliver?) || (h in s.rpc.handlers ==> s.rpc.handlers[h].request != q)
  }

  lemma JointSpares(s: P.State, step: P.Action, t: P.State, q: R.RequestId)
    requires P.RpcInv(s.rpc) && P.Next(s, step, t) && IsApartFrom(s, step, q) && q in s.rpc.calls
    ensures Untouched(s, t, q)
  {
    var h := HandlerOf(step).value;
    match step
    case Rpc(a) => RpcSpares(s, a, t, h, q);
    case Unschedule(_) =>
      HandlerSpares(s.rpc, R.Unschedule(h), h, q);
      UnscheduleSpares(s, h, t, q);
  }

  lemma PartIsApart(s: State, a: Action, t: State, e: EmissionId, q: R.RequestId)
    requires Next(s, a, t) && IsStepOf(s, a, e) && e in s.emissions && q != s.emissions[e].request
    requires RunningOk(s.joint.rpc, s.emissions[e])
    ensures JointPart(s, a).Some? ==> IsApartFrom(s.joint, JointPart(s, a).value, q)
  {
  }

  lemma StepSpares(s: State, a: Action, t: State, e: EmissionId, q: R.RequestId)
    requires Next(s, a, t) && P.RpcInv(s.joint.rpc) && EmissionsOk(s) && IsStepOf(s, a, e)
    requires e in s.emissions && q != s.emissions[e].request && q in s.joint.rpc.calls
    ensures Untouched(s.joint, t.joint, q)
  {
    assert RunningOk(s.joint.rpc, s.emissions[e]);
    R.EntryHoldsBoth(s.joint.rpc, q);
    JointMoves(s, a, t);
    PartIsApart(s, a, t, e, q);
    if JointPart(s, a).Some? {
      JointSpares(s.joint, JointPart(s, a).value, t.joint, q);
    }
  }

  /** In every run, a step of an emission or of the handler it waits for leaves every other pending request its entry,
      both slots, its timeout and its task, although slots are erased while the emission runs. */
  lemma EmissionSparesOthers(ss: seq<State>, acts: seq<Action>, i: nat, e: EmissionId, q: R.RequestId)
    requires IsRun(ss, acts) && i < |acts| && IsStepOf(ss[i], acts[i], e)
    requires e in ss[i].emissions && q != ss[i].emissions[e].request && q in ss[i].joint.rpc.calls
    ensures Untouched(ss[i].joint, ss[i + 1].joint, q)
  {
    EmissionsHold(ss, acts, i);
    assert StepAt(ss, acts, i);
    StepSpares(ss[i], acts[i], ss[i + 1], e, q);
  }
}
