/**
 Emissions of messages to the slots of the RPC system, interleaved with everything that `RpcProtocol` describes: with
 calls, timeouts, other emissions, and callbacks that do any of that.  An emission takes a snapshot of the ids of its
 signal, looks each one up again, and runs the closure it finds, which compares connection and request and then handles
 the response; it goes on when the handler has returned.
 */
module RpcRouting {
  import opened Wrappers
  import R = RpcTables
  import P = RpcProtocol
  import S = SchedulerRuns

  type EmissionId = nat

  /** The call that is to be completed by an emission, with the kind of its slot. */
  datatype Debt = Debt(call: R.CallId, kind: R.Kind)

  /** `running` is the handler the emission waits for.  The last three fields are history: the snapshot's slots that
      matched at the start, the pending call that awaited the message then, and the calls whose entries the emission's
      handlers have claimed. */
  datatype Emission = Emission(
    message: R.MessageType,
    conn: R.ConnectionId,
    request: R.RequestId,
    order: seq<R.SlotId>,
    next: nat,
    running: Option<R.HandlerId>,
    ended: bool,
    matched: set<R.SlotId>,
    owed: Option<Debt>,
    claimed: seq<R.CallId>)

  datatype State = State(joint: P.State, emissions: map<EmissionId, Emission>)

  /** `Joint` are the steps of `RpcProtocol` other than those that have an action of their own here.  `Skip`, `Pass` and
      `Run` are the three outcomes of the next round: the id is gone, the message is not for this slot, or it is.
      `Claim` is the claim of a handler the emission waits for. */
  datatype Action =
    | Joint(step: P.Action)
    | Start(id: EmissionId, message: R.MessageType, conn: R.ConnectionId, request: R.RequestId, order: seq<R.SlotId>)
    | Skip(id: EmissionId)
    | Pass(id: EmissionId)
    | Run(id: EmissionId, handler: R.HandlerId)
    | Claim(id: EmissionId)
    | Return(id: EmissionId)
    | Finish(id: EmissionId)

  predicate IsFor(slot: R.Slot, conn: R.ConnectionId, request: R.RequestId) {
    slot.conn == conn && slot.request == request
  }

  /** The slot at the front is subscribed and the message is for it. */
  predicate Reaches(s: R.State, em: Emission, x: R.SlotId) {
    x in s.slots && IsFor(s.slots[x], em.conn, em.request)
  }

  function Matching(s: R.State, conn: R.ConnectionId, request: R.RequestId, order: seq<R.SlotId>): set<R.SlotId> {
    set x | x in order && x in s.slots && IsFor(s.slots[x], conn, request)
  }

  /** The pending call that awaits the message. */
  function Owed(s: R.State, message: R.MessageType, conn: R.ConnectionId, request: R.RequestId): Option<Debt> {
    if request in s.calls && s.calls[request].call in s.specs && s.specs[s.calls[request].call].conn == conn then
      var c := s.calls[request].call;
      if s.specs[c].response == message then Some(Debt(c, R.Success))
      else if s.specs[c].error == message then Some(Debt(c, R.Error))
      else None
    else None
  }

  function Started(s: R.State, message: R.MessageType, conn: R.ConnectionId, request: R.RequestId,
                   order: seq<R.SlotId>): Emission
  {
    Emission(message, conn, request, order, 0, None, false, Matching(s, conn, request, order),
             Owed(s, message, conn, request), [])
  }

  ghost predicate IsOrderOf(order: seq<R.SlotId>, s: R.State, message: R.MessageType) {
    && (forall i, j :: 0 <= i < j < |order| ==> order[i] != order[j])
    && (forall x :: x in order <==> x in s.slots && x.message == message)
  }

  /** No emission waits for this handler. */
  ghost predicate Unused(s: State, h: R.HandlerId) {
    forall e :: e in s.emissions ==> s.emissions[e].running != Some(h)
  }

  predicate IsReady(s: State, e: EmissionId) {
    e in s.emissions && s.emissions[e].running == None && s.emissions[e].next < |s.emissions[e].order|
  }

  function Front(s: State, e: EmissionId): R.SlotId
    requires IsReady(s, e)
  {
    s.emissions[e].order[s.emissions[e].next]
  }

  function Advanced(s: State, e: EmissionId, running: Option<R.HandlerId>): map<EmissionId, Emission>
    requires e in s.emissions
  {
    s.emissions[e := s.emissions[e].(next := s.emissions[e].next + 1, running := running)]
  }

  /** A step that is nobody else's. */
  ghost predicate IsPlain(s: State, step: P.Action) {
    && (step.RunItem? ==> Unused(s, step.handler))
    && (step.Rpc? ==> !step.step.Deliver? && (step.step.Claim? ==> Unused(s, step.step.handler)))
  }

  ghost predicate Next(s: State, a: Action, t: State) {
    match a
    case Joint(step) => IsPlain(s, step) && P.Next(s.joint, step, t.joint) && t.emissions == s.emissions
    case Start(e, message, conn, request, order) =>
      && e !in s.emissions && IsOrderOf(order, s.joint.rpc, message)
      && t == s.(emissions := s.emissions[e := Started(s.joint.rpc, message, conn, request, order)])
    case Skip(e) =>
      && IsReady(s, e) && Front(s, e) !in s.joint.rpc.slots
      && t == s.(emissions := Advanced(s, e, None))
    case Pass(e) =>
      && IsReady(s, e) && Front(s, e) in s.joint.rpc.slots && !Reaches(s.joint.rpc, s.emissions[e], Front(s, e))
      && t == s.(emissions := Advanced(s, e, None))
    case Run(e, h) =>
      && IsReady(s, e) && Reaches(s.joint.rpc, s.emissions[e], Front(s, e)) && Unused(s, h)
      && P.Next(s.joint, P.Rpc(R.Deliver(h, Front(s, e))), t.joint)
      && t.emissions == Advanced(s, e, Some(h))
    case Claim(e) =>
      && e in s.emissions && s.emissions[e].running.Some?
      && P.Next(s.joint, P.Rpc(R.Claim(s.emissions[e].running.value)), t.joint)
      && t.emissions == s.emissions[e := Claimed(s.joint.rpc, s.emissions[e])]
    case Return(e) =>
      && e in s.emissions && s.emissions[e].running.Some?
      && s.emissions[e].running.value !in s.joint.rpc.handlers
      && t == s.(emissions := s.emissions[e := s.emissions[e].(running := None)])
    case Finish(e) =>
      && e in s.emissions && !s.emissions[e].ended && s.emissions[e].running == None
      && s.emissions[e].next == |s.emissions[e].order|
      && t == s.(emissions := s.emissions[e := s.emissions[e].(ended := true)])
  }

  /** The call whose entry the handler takes. */
  function Claimed(s: R.State, em: Emission): Emission {
    if em.running.Some? && em.running.value in s.handlers && s.handlers[em.running.value].request in s.calls
    then em.(claimed := em.claimed + [s.calls[s.handlers[em.running.value].request].call])
    else em
  }

  ghost predicate StepAt(ss: seq<State>, acts: seq<Action>, i: nat)
    requires i < |acts| < |ss|
  {
    Next(ss[i], acts[i], ss[i + 1])
  }

  ghost predicate IsPath(ss: seq<State>, acts: seq<Action>) {
    |ss| == |acts| + 1 && forall i :: 0 <= i < |acts| ==> StepAt(ss, acts, i)
  }

  ghost predicate IsRun(ss: seq<State>, acts: seq<Action>) {
    && IsPath(ss, acts)
    && ss[0].joint.rpc == R.INITIAL && S.IsInitial(ss[0].joint.sched) && ss[0].emissions == map[]
  }

  // ---- Refinement of RpcProtocol ----

  /** The step of `RpcProtocol` in a step, if it has one. */
  function JointPart(s: State, a: Action): Option<P.Action> {
    match a
    case Joint(step) => Some(step)
    case Run(e, h) => if IsReady(s, e) then Some(P.Rpc(R.Deliver(h, Front(s, e)))) else None
    case Claim(e) =>
      if e in s.emissions && s.emissions[e].running.Some? then Some(P.Rpc(R.Claim(s.emissions[e].running.value)))
      else None
    case _ => None
  }

  lemma JointMoves(s: State, a: Action, t: State)
    requires Next(s, a, t)
    ensures match JointPart(s, a) case None => t.joint == s.joint case Some(step) => P.Next(s.joint, step, t.joint)
  {
  }

  /** Every run is one of `RpcProtocol` when the emissions are forgotten, so all that was proved there holds here. */
  lemma {:induction false} ProjectedRun(ss: seq<State>, acts: seq<Action>, n: nat)
      returns (tt: seq<P.State>, bs: seq<P.Action>)
    requires IsRun(ss, acts) && n < |ss|
    ensures P.IsRun(tt, bs) && tt[|bs|] == ss[n].joint
  {
    if n == 0 {
      tt, bs := [ss[0].joint], [];
    } else {
      tt, bs := ProjectedRun(ss, acts, n - 1);
      assert StepAt(ss, acts, n - 1);
      JointMoves(ss[n - 1], acts[n - 1], ss[n]);
      match JointPart(ss[n - 1], acts[n - 1])
      case None =>
      case Some(step) => tt, bs := P.Then(tt, bs, step, ss[n].joint);
    }
  }

  /** A run can go on along a path from any of its states. */
  lemma Follow(ss: seq<State>, acts: seq<Action>, n: nat, tt: seq<State>, bs: seq<Action>)
      returns (uu: seq<State>, cs: seq<Action>)
    requires IsRun(ss, acts) && n < |ss| && IsPath(tt, bs) && tt[0] == ss[n]
    ensures IsRun(uu, cs) && uu == ss[..n] + tt && cs == acts[..n] + bs
  {
    uu, cs := ss[..n] + tt, acts[..n] + bs;
    forall i | 0 <= i < |cs| ensures StepAt(uu, cs, i) {
      if i < n {
        assert StepAt(ss, acts, i);
      } else {
        assert StepAt(tt, bs, i - n);
      }
    }
  }

  lemma OneMore(ss: seq<State>, acts: seq<Action>, a: Action, t: State) returns (tt: seq<State>, more: seq<Action>)
    requires IsRun(ss, acts) && Next(ss[|acts|], a, t)
    ensures IsRun(tt, more) && tt == ss + [t] && more == acts + [a]
  {
    var path := [ss[|acts|], t];
    assert StepAt(path, [a], 0);
    tt, more := Follow(ss, acts, |acts|, path, [a]);
    assert ss[..|acts|] + path == ss + [t] && acts[..|acts|] == acts;
  }

  /** A run of `RpcProtocol` in which no message is handled is one here, too. */
  lemma RunWithoutMessages(tt: seq<P.State>, bs: seq<P.Action>) returns (ss: seq<State>, acts: seq<Action>)
    requires P.IsRun(tt, bs) && forall b :: b in bs ==> !(b.Rpc? && b.step.Deliver?)
    ensures IsRun(ss, acts) && ss[|acts|] == State(tt[|bs|], map[])
  {
    ss := seq(|tt|, i requires 0 <= i < |tt| => State(tt[i], map[]));
    acts := seq(|bs|, i requires 0 <= i < |bs| => Joint(bs[i]));
    forall i | 0 <= i < |acts| ensures StepAt(ss, acts, i) {
      assert P.StepAt(tt, bs, i) && bs[i] in bs;
    }
  }

  lemma RpcInvHolds(ss: seq<State>, acts: seq<Action>, n: nat)
    requires IsRun(ss, acts) && n < |ss|
    ensures P.RpcInv(ss[n].joint.rpc)
  {
    var tt, bs := ProjectedRun(ss, acts, n);
    P.PartsHold(tt, bs, |bs|);
  }

  // ---- Invariants of one emission ----

  predicate OrderOk(s: R.State, em: Emission) {
    && em.next <= |em.order|
    && forall x :: x in em.order ==> x.message == em.message && x.number < R.NextNumber(s.counters, x.message)
  }

  /** The closure of a call of this request on this connection, whose response or error type the message has. */
  predicate Answers(s: R.State, em: Emission, c: R.CallId, kind: R.Kind) {
    && kind != R.Timeout && c in s.specs && s.specs[c].request == em.request && s.specs[c].conn == em.conn
    && R.MessageOf(s.specs[c], kind) == em.message
  }

  predicate RunningOk(s: R.State, em: Emission) {
    em.running.Some? && em.running.value in s.handlers ==>
      var handler := s.handlers[em.running.value];
      && handler.request == em.request && Answers(s, em, handler.source, handler.kind)
      && handler.callback == R.CallbackOf(s.specs[handler.source], handler.kind)
  }

  predicate ClaimedOk(s: R.State, em: Emission) {
    && (forall i, j :: 0 <= i < j < |em.claimed| ==> em.claimed[i] != em.claimed[j])
    && forall c :: c in em.claimed ==> R.IsSettled(s, c) && c in s.specs && s.specs[c].request == em.request
  }

  /** A slot of the snapshot that matches has matched from the start; without one, the emission has done nothing. */
  predicate MatchedOk(s: R.State, em: Emission) {
    && (forall x :: x in em.order && Reaches(s, em, x) ==> x in em.matched)
    && (em.matched == {} ==> em.running == None && em.claimed == [])
  }

  /** A handler is about to claim the request. */
  predicate IsClaiming(s: R.State, running: Option<R.HandlerId>, request: R.RequestId) {
    running.Some? && running.value in s.handlers && s.handlers[running.value].at.Claiming?
    && s.handlers[running.value].request == request
  }

  function EntrySlot(s: R.State, c: R.CallId, kind: R.Kind): R.SlotId
    requires R.IsEntry(s, c)
  {
    if kind == R.Success then s.calls[s.specs[c].request].success else s.calls[s.specs[c].request].error
  }

  /** The ids still to be reached. */
  function Left(em: Emission): seq<R.SlotId> {
    if em.next <= |em.order| then em.order[em.next..] else []
  }

  /** As long as the entry that awaited the message is pending, its slot is still to be reached, or its handler is about
      to claim it. */
  predicate OwedOk(s: R.State, em: Emission) {
    em.owed.Some? ==>
      var c := em.owed.value.call;
      && Answers(s, em, c, em.owed.value.kind)
      && (R.IsEntry(s, c) || R.IsSettled(s, c))
      && (R.IsEntry(s, c) ==>
            IsClaiming(s, em.running, em.request) || EntrySlot(s, c, em.owed.value.kind) in Left(em))
  }

  predicate EndedOk(em: Emission) {
    em.ended ==> em.running == None && em.next == |em.order|
  }

  predicate EmissionOk(s: R.State, em: Emission) {
    OrderOk(s, em) && RunningOk(s, em) && ClaimedOk(s, em) && MatchedOk(s, em) && OwedOk(s, em) && EndedOk(em)
  }

  // ---- Steps of the tables keep them ----

  /** The step starts no handler under the name of the one the emission waits for. */
  predicate IsApart(em: Emission, a: R.Action) {
    (a.Deliver? || a.RunItem?) ==> em.running != Some(a.handler)
  }

  lemma OrderKept(s: R.State, a: R.Action, em: Emission)
    requires R.Enabled(s, a) && OrderOk(s, em)
    ensures OrderOk(R.Apply(s, a), em)
  {
    forall x | x in em.order ensures x.number < R.NextNumber(R.Apply(s, a).counters, x.message) {
      R.SlotsAreFresh(s, a, x);
    }
  }

  lemma RunningKept(s: R.State, a: R.Action, em: Emission)
    requires R.Enabled(s, a) && RunningOk(s, em) && IsApart(em, a)
    ensures RunningOk(R.Apply(s, a), em)
  {
    R.SpecsStay(s, a);
    if em.running.Some? && em.running.value in R.Apply(s, a).handlers {
      R.HandlerMoves(s, a, em.running.value);
    }
  }

  lemma ClaimedKept(s: R.State, a: R.Action, em: Emission)
    requires R.Enabled(s, a) && R.PlaceInv(s) && ClaimedOk(s, em)
    ensures ClaimedOk(R.Apply(s, a), em)
  {
    R.SpecsStay(s, a);
    forall c | c in em.claimed ensures R.IsSettled(R.Apply(s, a), c) {
      SettledKept(s, a, c);
    }
  }

  lemma SettledKept(s: R.State, a: R.Action, c: R.CallId)
    requires R.Enabled(s, a) && R.PlaceInv(s) && R.IsSettled(s, c)
    ensures R.IsSettled(R.Apply(s, a), c)
  {
    assert R.StageOk(s, c) && R.AboutPlace(s, a);
    R.SettledStays(s, a, c);
  }

  lemma MatchedKept(s: R.State, a: R.Action, em: Emission)
    requires R.Enabled(s, a) && OrderOk(s, em) && MatchedOk(s, em)
    ensures MatchedOk(R.Apply(s, a), em)
  {
    forall x | x in em.order && Reaches(R.Apply(s, a), em, x) ensures x in em.matched {
      R.SlotsAreFresh(s, a, x);
      assert Reaches(s, em, x);
    }
  }

  lemma ClaimingKept(s: R.State, a: R.Action, running: Option<R.HandlerId>, c: R.CallId)
    requires R.Enabled(s, a) && R.IsEntry(s, c) && R.IsEntry(R.Apply(s, a), c)
    requires IsClaiming(s, running, s.specs[c].request)
    ensures IsClaiming(R.Apply(s, a), running, s.specs[c].request)
  {
    R.ClaimingStays(s, a, running.value, c);
  }

  lemma OwedKept(s: R.State, a: R.Action, em: Emission)
    requires R.Enabled(s, a) && R.PlaceInv(s) && OwedOk(s, em)
    ensures OwedOk(R.Apply(s, a), em)
  {
    if em.owed.Some? {
      var c := em.owed.value.call;
      R.SpecsStay(s, a);
      if R.IsSettled(s, c) {
        SettledKept(s, a, c);
        NotBoth(R.Apply(s, a), c, s, a);
      } else {
        R.EntryStaysOrSettles(s, a, c);
        if R.IsEntry(R.Apply(s, a), c) {
          R.EntryStays(s, a, c);
          if IsClaiming(s, em.running, em.request) {
            ClaimingKept(s, a, em.running, c);
          }
        }
      }
    }
  }

  lemma NotBoth(t: R.State, c: R.CallId, s: R.State, a: R.Action)
    requires R.PlaceInv(s) && R.Enabled(s, a) && t == R.Apply(s, a) && R.IsSettled(t, c)
    ensures !R.IsEntry(t, c)
  {
    R.PlaceInvKept(s, a);
    assert R.EnteredOk(t, c);
  }

  lemma EmissionKept(s: R.State, a: R.Action, em: Emission)
    requires R.Enabled(s, a) && R.PlaceInv(s) && EmissionOk(s, em) && IsApart(em, a)
    ensures EmissionOk(R.Apply(s, a), em)
  {
    OrderKept(s, a, em);
    RunningKept(s, a, em);
    ClaimedKept(s, a, em);
    MatchedKept(s, a, em);
    OwedKept(s, a, em);
  }

  // ---- Steps of the emission keep them ----

  /** The slot of a pending entry that awaits the message is subscribed, and the message is for it. */
  lemma EntrySlotReached(s: R.State, em: Emission, c: R.CallId, kind: R.Kind)
    requires P.RpcInv(s) && R.IsEntry(s, c) && Answers(s, em, c, kind)
    ensures Reaches(s, em, EntrySlot(s, c, kind))
    ensures EntrySlot(s, c, kind).message == em.message
  {
    R.EntryHoldsBoth(s, s.specs[c].request);
    assert R.SlotOk(s, EntrySlot(s, c, kind));
  }

  lemma StartKept(s: R.State, message: R.MessageType, conn: R.ConnectionId, request: R.RequestId, order: seq<R.SlotId>)
    requires P.RpcInv(s) && IsOrderOf(order, s, message)
    ensures EmissionOk(s, Started(s, message, conn, request, order))
  {
    var em := Started(s, message, conn, request, order);
    forall x | x in order ensures x.message == message && x.number < R.NextNumber(s.counters, x.message) {
      assert R.SlotOk(s, x);
    }
    if em.owed.Some? {
      assert R.EntryOk(s, request) && R.EnteredOk(s, em.owed.value.call);
      EntrySlotReached(s, em, em.owed.value.call, em.owed.value.kind);
      assert Left(em) == order;
    }
  }

  /** The round is over: the slot at the front was not one the message is for. */
  lemma AdvanceKept(s: R.State, em: Emission)
    requires P.RpcInv(s) && EmissionOk(s, em) && em.running == None && em.next < |em.order|
    requires !Reaches(s, em, em.order[em.next])
    ensures EmissionOk(s, em.(next := em.next + 1))
  {
    assert Left(em) == [em.order[em.next]] + Left(em.(next := em.next + 1));
    if em.owed.Some? && R.IsEntry(s, em.owed.value.call) {
      EntrySlotReached(s, em, em.owed.value.call, em.owed.value.kind);
    }
  }

  lemma RunKept(s: R.State, em: Emission, h: R.HandlerId, x: R.SlotId)
    requires P.RpcInv(s) && EmissionOk(s, em) && em.running == None && em.next < |em.order| && x == em.order[em.next]
    requires Reaches(s, em, x) && R.Enabled(s, R.Deliver(h, x))
    ensures Answers(s, em, s.slots[x].call, s.slots[x].kind)
    ensures EmissionOk(R.Apply(s, R.Deliver(h, x)), em.(next := em.next + 1, running := Some(h)))
  {
    assert R.SlotOk(s, x);
    EmissionKept(s, R.Deliver(h, x), em);
  }

  lemma ClaimKept(s: R.State, em: Emission, h: R.HandlerId)
    requires P.RpcInv(s) && EmissionOk(s, em) && em.running == Some(h) && R.Enabled(s, R.Claim(h))
    ensures EmissionOk(R.Apply(s, R.Claim(h)), Claimed(s, em))
  {
    var c := s.calls[em.request].call;
    EmissionKept(s, R.Claim(h), em);
    assert R.EntryOk(s, em.request) && R.EnteredOk(s, c);
    R.EntryStaysOrSettles(s, R.Claim(h), c);
  }

  lemma ReturnKept(s: R.State, em: Emission)
    requires EmissionOk(s, em) && em.running.Some? && em.running.value !in s.handlers
    ensures EmissionOk(s, em.(running := None))
  {
  }

  ghost predicate EmissionsOk(s: State) {
    forall e :: e in s.emissions ==> EmissionOk(s.joint.rpc, s.emissions[e])
  }

  lemma JointKept(s: State, step: P.Action, t: State, em: Emission, e: EmissionId)
    requires P.Next(s.joint, step, t.joint) && P.RpcInv(s.joint.rpc) && EmissionOk(s.joint.rpc, em)
    requires e in s.emissions && s.emissions[e] == em
    requires step.RunItem? ==> Unused(s, step.handler)
    requires step.Rpc? && step.step.Deliver? ==> Unused(s, step.step.handler)
    ensures EmissionOk(t.joint.rpc, em)
  {
    var part := P.RpcPart(s.joint, step, t.joint);
    if part.Some? {
      EmissionKept(s.joint.rpc, part.value, em);
    }
  }

  /** A step leaves the emissions that it is not about. */
  lemma OtherKept(s: State, a: Action, t: State, e: EmissionId)
    requires Next(s, a, t) && P.RpcInv(s.joint.rpc) && EmissionsOk(s) && e in s.emissions
    requires a.Joint? || a.id != e
    ensures e in t.emissions && t.emissions[e] == s.emissions[e] && EmissionOk(t.joint.rpc, t.emissions[e])
  {
    var part := JointPart(s, a);
    JointMoves(s, a, t);
    if part.Some? {
      JointKept(s, part.value, t, s.emissions[e], e);
    }
  }

  lemma RoundKept(s: State, a: Action, t: State)
    requires Next(s, a, t) && P.RpcInv(s.joint.rpc) && EmissionsOk(s) && (a.Skip? || a.Pass?)
    ensures a.id in t.emissions && EmissionOk(t.joint.rpc, t.emissions[a.id])
  {
    AdvanceKept(s.joint.rpc, s.emissions[a.id]);
  }

  lemma RunRoundKept(s: State, a: Action, t: State)
    requires Next(s, a, t) && P.RpcInv(s.joint.rpc) && EmissionsOk(s) && a.Run?
    ensures a.id in t.emissions && EmissionOk(t.joint.rpc, t.emissions[a.id])
  {
    RunKept(s.joint.rpc, s.emissions[a.id], a.handler, Front(s, a.id));
  }

  lemma OwnKept(s: State, a: Action, t: State)
    requires Next(s, a, t) && P.RpcInv(s.joint.rpc) && EmissionsOk(s) && !a.Joint?
    ensures a.id in t.emissions && EmissionOk(t.joint.rpc, t.emissions[a.id])
  {
    match a
    case Start(_, message, conn, request, order) => StartKept(s.joint.rpc, message, conn, request, order);
    case Claim(e) => ClaimKept(s.joint.rpc, s.emissions[e], s.emissions[e].running.value);
    case Return(e) => ReturnKept(s.joint.rpc, s.emissions[e]);
    case Finish(_) =>
    case Run(_, _) => RunRoundKept(s, a, t);
    case _ => RoundKept(s, a, t);
  }

  lemma EmissionsKept(s: State, a: Action, t: State)
    requires Next(s, a, t) && P.RpcInv(s.joint.rpc) && EmissionsOk(s)
    ensures EmissionsOk(t)
  {
    forall e | e in t.emissions ensures EmissionOk(t.joint.rpc, t.emissions[e]) {
      if a.Joint? || a.id != e {
        OtherKept(s, a, t, e);
      } else {
        OwnKept(s, a, t);
      }
    }
  }

  lemma {:induction false} EmissionsHold(ss: seq<State>, acts: seq<Action>, n: nat)
    requires IsRun(ss, acts) && n < |ss|
    ensures EmissionsOk(ss[n]) && P.RpcInv(ss[n].joint.rpc)
  {
    RpcInvHolds(ss, acts, n);
    if n > 0 {
      EmissionsHold(ss, acts, n - 1);
      assert StepAt(ss, acts, n - 1);
      EmissionsKept(ss[n - 1], acts[n - 1], ss[n]);
    }
  }

  /** What was fixed when the emission started. */
  predicate SameEmission(em: Emission, fm: Emission) {
    && fm.message == em.message && fm.conn == em.conn && fm.request == em.request && fm.order == em.order
    && fm.matched == em.matched && fm.owed == em.owed
  }

  lemma {:induction false} EmissionStays(ss: seq<State>, acts: seq<Action>, m: nat, n: nat, e: EmissionId)
    requires IsRun(ss, acts) && m <= n < |ss| && e in ss[m].emissions
    ensures e in ss[n].emissions && SameEmission(ss[m].emissions[e], ss[n].emissions[e])
  {
    if m < n {
      EmissionStays(ss, acts, m, n - 1, e);
      assert StepAt(ss, acts, n - 1);
    }
  }

  lemma StartedAt(ss: seq<State>, acts: seq<Action>, i: nat, n: nat, e: EmissionId)
    requires IsRun(ss, acts) && i < n < |ss| && acts[i].Start? && acts[i].id == e
    ensures IsOrderOf(acts[i].order, ss[i].joint.rpc, acts[i].message)
    ensures var a := acts[i];
      e in ss[n].emissions
      && SameEmission(Started(ss[i].joint.rpc, a.message, a.conn, a.request, a.order), ss[n].emissions[e])
  {
    assert StepAt(ss, acts, i);
    EmissionStays(ss, acts, i + 1, n, e);
  }
}
