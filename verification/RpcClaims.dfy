/**
 Where emissions route messages: what their handlers answer and claim, in every run, and when an emission can claim an
 entry, which is exactly if some call listened when it started.
 */
module RpcClaims {
  import opened Wrappers
  import opened RpcRouting
  import R = RpcTables
  import P = RpcProtocol

  // ---- Routing ----

  /** Every handler an emission starts runs the closure of a call with the message's request and connection, through a
      slot in the signal of the message's type, which is the call's response type for its success closure and its error
      type for its error closure. */
  lemma HandlersAnswer(ss: seq<State>, acts: seq<Action>, i: nat)
    requires IsRun(ss, acts) && i < |acts| && acts[i].Run?
    ensures IsReady(ss[i], acts[i].id)
    ensures var s, em, h := ss[i].joint.rpc, ss[i].emissions[acts[i].id], acts[i].handler;
      var x := Front(ss[i], acts[i].id);
      && x.message == em.message && x in s.slots
      && Answers(s, em, s.slots[x].call, s.slots[x].kind)
      && h in ss[i + 1].joint.rpc.handlers
      && var handler := ss[i + 1].joint.rpc.handlers[h];
      && handler.request == em.request && handler.source == s.slots[x].call && handler.source in s.specs
      && var spec := s.specs[handler.source];
      && spec.request == em.request && spec.conn == em.conn
      && (handler.kind == R.Success || handler.kind == R.Error)
      && (handler.kind == R.Success ==> spec.response == em.message && handler.callback == spec.onSuccess)
      && (handler.kind == R.Error ==> spec.error == em.message && handler.callback == spec.onError)
  {
    EmissionsHold(ss, acts, i);
    assert StepAt(ss, acts, i);
    var s, em := ss[i].joint.rpc, ss[i].emissions[acts[i].id];
    RunKept(s, em, acts[i].handler, Front(ss[i], acts[i].id));
    assert R.SlotOk(s, Front(ss[i], acts[i].id));
  }

  predicate AwaitsOn(s: R.State, c: R.CallId, message: R.MessageType, conn: R.ConnectionId, request: R.RequestId) {
    && R.IsEntry(s, c) && s.specs[c].request == request && s.specs[c].conn == conn
    && (s.specs[c].response == message || s.specs[c].error == message)
  }

  /** An entry that awaited the message when the emission started is not pending any more when it has ended, whatever
      else went on; with one call per request, nor is the request. */
  lemma AwaitedIsSettled(ss: seq<State>, acts: seq<Action>, i: nat, n: nat, c: R.CallId)
    requires IsRun(ss, acts) && i < n < |ss| && acts[i].Start?
    requires acts[i].id in ss[n].emissions && ss[n].emissions[acts[i].id].ended
    requires AwaitsOn(ss[i].joint.rpc, c, acts[i].message, acts[i].conn, acts[i].request)
    ensures R.IsSettled(ss[n].joint.rpc, c)
    ensures R.CalledOnce(ss[n].joint.rpc) ==> acts[i].request !in ss[n].joint.rpc.calls
  {
    StartedAt(ss, acts, i, n, acts[i].id);
    EmissionsHold(ss, acts, n);
    var s, em := ss[n].joint.rpc, ss[n].emissions[acts[i].id];
    assert EmissionOk(s, em) && em.owed.Some? && em.owed.value.call == c;
    if R.CalledOnce(s) {
      P.SettledIsNotPending(s, c);
    }
  }

  /** A claim of an emission's handler takes an entry of the message's request; with one call per request, it is one
      that awaits the message on its connection at that moment. */
  lemma ClaimsAwaited(ss: seq<State>, acts: seq<Action>, i: nat)
    requires IsRun(ss, acts) && i < |acts| && acts[i].Claim?
    ensures acts[i].id in ss[i].emissions && ss[i].emissions[acts[i].id].request in ss[i].joint.rpc.calls
    ensures var s, em := ss[i].joint.rpc, ss[i].emissions[acts[i].id];
      var c := s.calls[em.request].call;
      && R.IsEntry(s, c)
      && acts[i].id in ss[i + 1].emissions && ss[i + 1].emissions[acts[i].id].claimed == em.claimed + [c]
      && (R.CalledOnce(s) ==> AwaitsOn(s, c, em.message, em.conn, em.request))
  {
    EmissionsHold(ss, acts, i);
    assert StepAt(ss, acts, i);
    var s, em := ss[i].joint.rpc, ss[i].emissions[acts[i].id];
    assert EmissionOk(s, em) && R.EntryOk(s, em.request);
    var handler := s.handlers[em.running.value];
    assert R.SameCall(s, handler.source, s.calls[em.request].call) || !R.CalledOnce(s);
  }

  /** An emission claims entries of the message's request only, each once; with one call per request, at most one. */
  lemma ClaimsAtMostOne(ss: seq<State>, acts: seq<Action>, n: nat, e: EmissionId)
    requires IsRun(ss, acts) && n < |ss| && e in ss[n].emissions
    ensures var s, em := ss[n].joint.rpc, ss[n].emissions[e];
      && (forall c :: c in em.claimed ==> c in s.specs && s.specs[c].request == em.request && R.IsSettled(s, c))
      && (R.CalledOnce(s) ==> |em.claimed| <= 1)
  {
    EmissionsHold(ss, acts, n);
    var s, em := ss[n].joint.rpc, ss[n].emissions[e];
    assert EmissionOk(s, em);
    if R.CalledOnce(s) {
      assert |em.claimed| > 1 ==> R.SameCall(s, em.claimed[0], em.claimed[1]);
    }
  }

  /** The call has a slot that the message reaches: it is pending, or between that subscription and its entry. */
  predicate Listens(s: R.State, c: R.CallId, kind: R.Kind, message: R.MessageType, conn: R.ConnectionId,
                    request: R.RequestId)
  {
    && kind != R.Timeout && c in s.specs && s.specs[c].request == request && s.specs[c].conn == conn
    && R.MessageOf(s.specs[c], kind) == message
    && match R.Holdings(s, c)
       case Nothing => false
       case One(_) => kind == R.Success
       case Both(_, _) => true
  }

  lemma MatchingExactly(s: R.State, message: R.MessageType, conn: R.ConnectionId, request: R.RequestId,
                        order: seq<R.SlotId>)
    requires P.RpcInv(s) && IsOrderOf(order, s, message)
    ensures Matching(s, conn, request, order) == {} <==> forall c, kind :: !Listens(s, c, kind, message, conn, request)
  {
    forall x | x in Matching(s, conn, request, order)
      ensures Listens(s, s.slots[x].call, s.slots[x].kind, message, conn, request)
    {
      assert R.SlotOk(s, x);
    }
    forall c, kind | Listens(s, c, kind, message, conn, request) ensures Matching(s, conn, request, order) != {} {
      assert R.HandleOk(s, c);
      var holding := R.Holdings(s, c);
      var x := if kind == R.Success then holding.success else holding.error;
      assert R.SlotOk(s, x);
      assert x in Matching(s, conn, request, order);
    }
  }

  lemma OnlyEntriesListen(s: R.State, message: R.MessageType, conn: R.ConnectionId, request: R.RequestId)
    requires R.NoneSubscribing(s)
    ensures forall c, kind :: Listens(s, c, kind, message, conn, request) ==> AwaitsOn(s, c, message, conn, request)
  {
  }

  /** If nobody listens when the emission starts, it starts no handler and claims nothing. */
  lemma ClaimsNothing(ss: seq<State>, acts: seq<Action>, i: nat, n: nat)
    requires IsRun(ss, acts) && i < n < |ss| && acts[i].Start?
    requires forall c, kind :: !Listens(ss[i].joint.rpc, c, kind, acts[i].message, acts[i].conn, acts[i].request)
    ensures acts[i].id in ss[n].emissions
    ensures ss[n].emissions[acts[i].id].running == None && ss[n].emissions[acts[i].id].claimed == []
  {
    StartedAt(ss, acts, i, n, acts[i].id);
    EmissionsHold(ss, acts, i);
    EmissionsHold(ss, acts, n);
    MatchingExactly(ss[i].joint.rpc, acts[i].message, acts[i].conn, acts[i].request, acts[i].order);
    assert EmissionOk(ss[n].joint.rpc, ss[n].emissions[acts[i].id]);
  }

  // ---- When an emission can claim ----

  predicate IsNewCall(a: Action) {
    a.Joint? && a.step.Rpc? && a.step.step.Call?
  }

  /** A way to go on from `s`, without any further call, on which the emission claims an entry. */
  ghost predicate ClaimsOn(s: State, e: EmissionId, ss: seq<State>, acts: seq<Action>) {
    && IsPath(ss, acts) && ss[0] == s && Claim(e) in acts
    && forall a :: a in acts ==> !IsNewCall(a)
  }

  ghost predicate CanClaim(s: State, e: EmissionId) {
    exists ss, acts :: ClaimsOn(s, e, ss, acts)
  }

  lemma OneStepEarlier(s: State, a: Action, ss: seq<State>, acts: seq<Action>)
    requires IsPath(ss, acts) && Next(s, a, ss[0])
    ensures IsPath([s] + ss, [a] + acts)
  {
    forall i | 0 <= i < |acts| + 1 ensures StepAt([s] + ss, [a] + acts, i) {
      assert i > 0 ==> StepAt(ss, acts, i - 1);
    }
  }

  lemma CanClaimBefore(s: State, a: Action, t: State, e: EmissionId)
    requires Next(s, a, t) && !IsNewCall(a) && (CanClaim(t, e) || a == Claim(e))
    ensures CanClaim(s, e)
  {
    var ss, acts := [t], [];
    if a != Claim(e) {
      ss, acts :| ClaimsOn(t, e, ss, acts);
    }
    OneStepEarlier(s, a, ss, acts);
    assert ClaimsOn(s, e, [s] + ss, [a] + acts);
  }

  /** A name for another handler, that no emission waits for. */
  lemma UnusedHandler(s: State) returns (h: R.HandlerId)
    ensures h !in s.joint.rpc.handlers && Unused(s, h)
  {
    var waiting := set d | d in s.emissions && s.emissions[d].running.Some? :: s.emissions[d].running.value;
    h := R.NewHandler(s.joint.rpc.handlers.Keys + waiting);
    forall d | d in s.emissions ensures s.emissions[d].running != Some(h) {
      assert s.emissions[d].running.Some? ==> s.emissions[d].running.value in waiting;
    }
  }

  /** The emission has reached a slot the message is for, and the request is pending: a handler starts and claims it. */
  lemma CanClaimHere(s: State, e: EmissionId)
    requires IsReady(s, e) && Reaches(s.joint.rpc, s.emissions[e], Front(s, e))
    requires s.emissions[e].request in s.joint.rpc.calls
    ensures CanClaim(s, e)
  {
    var h := UnusedHandler(s);
    var rpc := R.Apply(s.joint.rpc, R.Deliver(h, Front(s, e)));
    var t := State(P.State(rpc, s.joint.sched), Advanced(s, e, Some(h)));
    HandlerClaims(t, e, h);
    CanClaimBefore(s, Run(e, h), t, e);
  }

  lemma HandlerClaims(s: State, e: EmissionId, h: R.HandlerId)
    requires e in s.emissions && s.emissions[e].running == Some(h) && R.Enabled(s.joint.rpc, R.Claim(h))
    ensures CanClaim(s, e)
  {
    var rpc := R.Apply(s.joint.rpc, R.Claim(h));
    var t := State(P.State(rpc, s.joint.sched), s.emissions[e := Claimed(s.joint.rpc, s.emissions[e])]);
    CanClaimBefore(s, Claim(e), t, e);
  }

  /** It gets to a slot the message is for by passing over the others. */
  lemma {:induction false} CanClaimAhead(s: State, e: EmissionId, p: nat)
    requires IsReady(s, e) && s.emissions[e].next <= p < |s.emissions[e].order|
    requires Reaches(s.joint.rpc, s.emissions[e], s.emissions[e].order[p])
    requires s.emissions[e].request in s.joint.rpc.calls
    ensures CanClaim(s, e)
    decreases p - s.emissions[e].next
  {
    if Reaches(s.joint.rpc, s.emissions[e], Front(s, e)) {
      CanClaimHere(s, e);
    } else {
      var t := s.(emissions := Advanced(s, e, None));
      CanClaimAhead(t, e, p);
      CanClaimBefore(s, if Front(s, e) in s.joint.rpc.slots then Pass(e) else Skip(e), t, e);
    }
  }

  predicate IsAhead(s: State, e: EmissionId, x: R.SlotId) {
    IsReady(s, e) && x in Left(s.emissions[e]) && Reaches(s.joint.rpc, s.emissions[e], x)
  }

  lemma CanClaimSlot(s: State, e: EmissionId, x: R.SlotId)
    requires IsAhead(s, e, x) && s.emissions[e].request in s.joint.rpc.calls
    ensures CanClaim(s, e)
  {
    var em := s.emissions[e];
    var k :| 0 <= k < |Left(em)| && Left(em)[k] == x;
    CanClaimAhead(s, e, em.next + k);
  }

  /** A listener that is not pending makes its entry first. */
  lemma CanClaimFull(s: State, e: EmissionId, x: R.SlotId, c: R.CallId)
    requires IsAhead(s, e, x) && c in s.joint.rpc.specs && s.joint.rpc.specs[c].request == s.emissions[e].request
    requires c in s.joint.rpc.callers && s.joint.rpc.callers[c].Full?
    ensures CanClaim(s, e)
  {
    if s.emissions[e].request in s.joint.rpc.calls {
      CanClaimSlot(s, e, x);
    } else {
      var t := s.(joint := P.State(R.Apply(s.joint.rpc, R.Insert(c)), s.joint.sched));
      CanClaimSlot(t, e, x);
      CanClaimBefore(s, Joint(P.Rpc(R.Insert(c))), t, e);
    }
  }

  lemma CanClaimHalf(s: State, e: EmissionId, x: R.SlotId, c: R.CallId)
    requires P.RpcInv(s.joint.rpc)
    requires IsAhead(s, e, x) && c in s.joint.rpc.specs && s.joint.rpc.specs[c].request == s.emissions[e].request
    requires c in s.joint.rpc.callers && s.joint.rpc.callers[c].Half?
    ensures CanClaim(s, e)
  {
    var t := s.(joint := P.State(R.Apply(s.joint.rpc, R.SubscribeError(c)), s.joint.sched));
    assert R.SlotOk(s.joint.rpc, x);
    CanClaimFull(t, e, x, c);
    CanClaimBefore(s, Joint(P.Rpc(R.SubscribeError(c))), t, e);
  }

  /** The slot through which a call listens. */
  lemma ListenerHasSlot(s: R.State, c: R.CallId, kind: R.Kind, message: R.MessageType, conn: R.ConnectionId,
                        request: R.RequestId)
      returns (x: R.SlotId)
    requires P.RpcInv(s) && Listens(s, c, kind, message, conn, request)
    ensures x in s.slots && x.message == message && IsFor(s.slots[x], conn, request)
  {
    assert R.HandleOk(s, c);
    var holding := R.Holdings(s, c);
    x := if kind == R.Success then holding.success else holding.error;
    assert R.SlotOk(s, x);
  }

  lemma ListenerCanBeClaimed(s: State, e: EmissionId, c: R.CallId, kind: R.Kind)
    requires P.RpcInv(s.joint.rpc) && e in s.emissions
    requires var em := s.emissions[e];
      && em.running == None && em.next == 0 && IsOrderOf(em.order, s.joint.rpc, em.message)
      && Listens(s.joint.rpc, c, kind, em.message, em.conn, em.request)
    ensures CanClaim(s, e)
  {
    var em := s.emissions[e];
    var x := ListenerHasSlot(s.joint.rpc, c, kind, em.message, em.conn, em.request);
    assert x in em.order && Left(em) == em.order;
    assert IsAhead(s, e, x);
    if R.IsEntry(s.joint.rpc, c) {
      CanClaimSlot(s, e, x);
    } else if s.joint.rpc.callers[c].Half? {
      CanClaimHalf(s, e, x, c);
    } else {
      CanClaimFull(s, e, x, c);
    }
  }

  lemma NoCallNoSpec(s: State, a: Action, t: State)
    requires Next(s, a, t) && !IsNewCall(a)
    ensures t.joint.rpc.specs == s.joint.rpc.specs
  {
    JointMoves(s, a, t);
    if JointPart(s, a).Some? {
      var part := P.RpcPart(s.joint, JointPart(s, a).value, t.joint);
      if part.Some? {
        R.FieldsChange(s.joint.rpc, part.value);
      }
    }
  }

  lemma {:induction false} NoCallsOnPath(ss: seq<State>, acts: seq<Action>, n: nat)
    requires IsPath(ss, acts) && n < |ss| && forall a :: a in acts ==> !IsNewCall(a)
    ensures ss[n].joint.rpc.specs == ss[0].joint.rpc.specs
  {
    if n > 0 {
      NoCallsOnPath(ss, acts, n - 1);
      assert StepAt(ss, acts, n - 1) && acts[n - 1] in acts;
      NoCallNoSpec(ss[n - 1], acts[n - 1], ss[n]);
    }
  }

  /** If nobody listens when the emission starts, there is no way on which it claims. */
  lemma NoListenerNoClaim(ss: seq<State>, acts: seq<Action>, i: nat, tt: seq<State>, bs: seq<Action>)
    requires IsRun(ss, acts) && i < |acts| && acts[i].Start?
    requires forall c, kind :: !Listens(ss[i].joint.rpc, c, kind, acts[i].message, acts[i].conn, acts[i].request)
    ensures !ClaimsOn(ss[i + 1], acts[i].id, tt, bs)
  {
    if ClaimsOn(ss[i + 1], acts[i].id, tt, bs) {
      var k :| 0 <= k < |bs| && bs[k] == Claim(acts[i].id);
      var uu, cs := Follow(ss, acts, i + 1, tt, bs);
      ClaimsNothing(uu, cs, i, i + 1 + k);
      ClaimsAwaited(uu, cs, i + 1 + k);
      ClaimsNothing(uu, cs, i, i + 2 + k);
    }
  }

  /** In every run: an emission can go on to claim an entry, in some continuation without any further call, if and only
      if some call listened when it started. */
  lemma CanClaimExactly(ss: seq<State>, acts: seq<Action>, i: nat)
    requires IsRun(ss, acts) && i < |acts| && acts[i].Start?
    ensures CanClaim(ss[i + 1], acts[i].id) <==>
      exists c, kind :: Listens(ss[i].joint.rpc, c, kind, acts[i].message, acts[i].conn, acts[i].request)
  {
    var s, a, t := ss[i].joint.rpc, acts[i], ss[i + 1];
    StartedAt(ss, acts, i, i + 1, a.id);
    assert StepAt(ss, acts, i);
    RpcInvHolds(ss, acts, i);
    if c, kind :| Listens(s, c, kind, a.message, a.conn, a.request) {
      ListenerCanBeClaimed(t, a.id, c, kind);
    } else {
      forall tt, bs ensures !ClaimsOn(t, a.id, tt, bs) {
        NoListenerNoClaim(ss, acts, i, tt, bs);
      }
    }
  }

  // ---- All together ----

  /** Who listens when no call is between its subscriptions and its entry. */
  lemma ListensExactly(s: R.State, message: R.MessageType, conn: R.ConnectionId, request: R.RequestId)
    requires R.NoneSubscribing(s)
    ensures (exists c, kind :: Listens(s, c, kind, message, conn, request)) <==>
      exists c :: AwaitsOn(s, c, message, conn, request)
  {
    OnlyEntriesListen(s, message, conn, request);
    forall c | AwaitsOn(s, c, message, conn, request)
      ensures exists kind :: Listens(s, c, kind, message, conn, request)
    {
      var kind := if s.specs[c].response == message then R.Success else R.Error;
      assert Listens(s, c, kind, message, conn, request);
    }
  }

  /** A message of type T for request r on connection c, with one call per request.  If r is pending on c and awaits T
      when the emission starts, r is not pending when it has ended.  The emission can claim an entry if and only if a
      call listens when it starts; if no call is between its subscriptions and its entry then, if and only if r is
      pending on c and awaits T.  It claims one at most. */
  lemma RoutedExactly(ss: seq<State>, acts: seq<Action>, i: nat, n: nat)
    requires IsRun(ss, acts) && i < n < |ss| && acts[i].Start? && R.CalledOnce(ss[n].joint.rpc)
    requires acts[i].id in ss[n].emissions && ss[n].emissions[acts[i].id].ended
    ensures var s, em := ss[i].joint.rpc, ss[n].emissions[acts[i].id];
      var listens := exists c, kind :: Listens(s, c, kind, em.message, em.conn, em.request);
      var awaits := exists c :: AwaitsOn(s, c, em.message, em.conn, em.request);
      && (awaits ==> em.request !in ss[n].joint.rpc.calls)
      && (CanClaim(ss[i + 1], acts[i].id) <==> listens) && (!listens ==> em.claimed == [])
      && (R.NoneSubscribing(s) ==> (CanClaim(ss[i + 1], acts[i].id) <==> awaits))
      && |em.claimed| <= 1
  {
    StartedAt(ss, acts, i, n, acts[i].id);
    ClaimsAtMostOne(ss, acts, n, acts[i].id);
    CanClaimExactly(ss, acts, i);
    var s, a := ss[i].joint.rpc, acts[i];
    if c :| AwaitsOn(s, c, a.message, a.conn, a.request) {
      AwaitedIsSettled(ss, acts, i, n, c);
    }
    if R.NoneSubscribing(s) {
      ListensExactly(s, a.message, a.conn, a.request);
    }
    if forall c, kind :: !Listens(s, c, kind, a.message, a.conn, a.request) {
      ClaimsNothing(ss, acts, i, n);
    }
  }
}
