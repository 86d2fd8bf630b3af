/**
 The outgoing side of a connection: a queue of frames and the chains of writes that drain it.
 A chain is a `SendNext` that is about to take the lock, a frame taken from the queue whose write is about to
 start, or a write in flight, whose completion makes another `SendNext` due.
 */
module SendQueue {
  import opened Framing

  /** The queue with its chains.  A payload stands for its frame.  `enqueued` and `popped` are history; `wire` is
      the order in which the writes were started. */
  datatype State = State(
    queue: seq<Bytes>,
    due: nat,
    ready: seq<Bytes>,
    writing: nat,
    wire: seq<Bytes>,
    failed: nat,
    enqueued: seq<Bytes>,
    popped: seq<Bytes>)

  datatype Action =
    | SendBytes(payload: Bytes)
    | SendNext
    | StartWrite(index: nat)
    | Completed
    | Failed

  const INITIAL := State([], 0, [], 0, [], 0, [], [])

  function Chains(s: State): nat {
    s.due + |s.ready| + s.writing
  }

  predicate Enabled(s: State, a: Action) {
    match a
    case SendBytes(_) => true
    case SendNext => s.due > 0
    case StartWrite(i) => i < |s.ready|
    case Completed => s.writing > 0
    case Failed => s.writing > 0
  }

  function Apply(s: State, a: Action): State
    requires Enabled(s, a)
  {
    match a
    case SendBytes(p) =>
      s.(queue := s.queue + [p], enqueued := s.enqueued + [p], due := if |s.queue + [p]| > 1 then s.due else s.due + 1)
    case SendNext =>
      if s.queue == [] then s.(due := s.due - 1)
      else
        var front := s.queue[0];
        s.(due := s.due - 1, queue := s.queue[1..], ready := s.ready + [front], popped := s.popped + [front])
    case StartWrite(i) =>
      s.(ready := s.ready[..i] + s.ready[i + 1..], writing := s.writing + 1, wire := s.wire + [s.ready[i]])
    case Completed => s.(writing := s.writing - 1, due := s.due + 1)
    case Failed => s.(writing := s.writing - 1, failed := s.failed + 1)
  }

  predicate StepAt(ss: seq<State>, acts: seq<Action>, i: nat)
    requires i < |acts| < |ss|
  {
    Enabled(ss[i], acts[i]) && ss[i + 1] == Apply(ss[i], acts[i])
  }

  predicate IsPath(ss: seq<State>, acts: seq<Action>) {
    |ss| == |acts| + 1 && forall i :: 0 <= i < |acts| ==> StepAt(ss, acts, i)
  }

  predicate IsRun(ss: seq<State>, acts: seq<Action>) {
    IsPath(ss, acts) && ss[0] == INITIAL
  }

  /** In every run the frames that were queued are those taken followed by those still queued, each frame taken is
      written once or about to be, and without a write error a queue that is not empty has a chain to drain it. */
  lemma {:induction false} NoStrandedFrames(ss: seq<State>, acts: seq<Action>, n: nat)
    requires IsRun(ss, acts) && n < |ss|
    ensures ss[n].enqueued == ss[n].popped + ss[n].queue
    ensures multiset(ss[n].popped) == multiset(ss[n].wire) + multiset(ss[n].ready)
    ensures ss[n].failed == 0 && ss[n].queue != [] ==> Chains(ss[n]) > 0
  {
    if n > 0 {
      NoStrandedFrames(ss, acts, n - 1);
      assert StepAt(ss, acts, n - 1);
      QueueKept(ss[n - 1], acts[n - 1]);
    }
  }

  lemma QueueKept(s: State, a: Action)
    requires Enabled(s, a)
    requires s.enqueued == s.popped + s.queue && multiset(s.popped) == multiset(s.wire) + multiset(s.ready)
    ensures var t := Apply(s, a);
      t.enqueued == t.popped + t.queue && multiset(t.popped) == multiset(t.wire) + multiset(t.ready)
  {
    match a
    case SendBytes(p) =>
      assert s.popped + (s.queue + [p]) == s.enqueued + [p];
    case SendNext =>
      assert s.queue != [] ==> s.popped + s.queue == s.popped + [s.queue[0]] + s.queue[1..];
    case StartWrite(i) =>
      assert s.ready == s.ready[..i] + ([s.ready[i]] + s.ready[i + 1..]);
    case Completed =>
    case Failed =>
  }

  /** When no step is left to take, everything that was queued has been written. */
  lemma QuietMeansWritten(ss: seq<State>, acts: seq<Action>, n: nat)
    requires IsRun(ss, acts) && n < |ss| && ss[n].failed == 0 && Chains(ss[n]) == 0
    ensures ss[n].queue == [] && ss[n].popped == ss[n].enqueued
    ensures multiset(ss[n].wire) == multiset(ss[n].enqueued)
  {
    NoStrandedFrames(ss, acts, n);
    assert ss[n].popped + [] == ss[n].popped;
    assert ss[n].ready == [];
  }

  // ---- At most one write ----

  /** The frames taken whose writes have not come back. */
  function InFlight(s: State): nat {
    |s.ready| + s.writing
  }

  /** A `SendNext` that takes a frame although the write of another has not come back. */
  predicate TakesSecond(s: State, a: Action) {
    a.SendNext? && s.queue != [] && InFlight(s) > 0
  }

  lemma {:induction false} OneWriteUntilSecond(ss: seq<State>, acts: seq<Action>, n: nat)
    requires IsRun(ss, acts) && n < |ss|
    requires forall i :: 0 <= i < n ==> !TakesSecond(ss[i], acts[i])
    ensures InFlight(ss[n]) <= 1
  {
    if n > 0 {
      OneWriteUntilSecond(ss, acts, n - 1);
      assert StepAt(ss, acts, n - 1) && !TakesSecond(ss[n - 1], acts[n - 1]);
    }
  }

  /** There is never more than one write in flight in exactly the runs in which no `SendNext` takes a second frame. */
  lemma OneWriteExactly(ss: seq<State>, acts: seq<Action>)
    requires IsRun(ss, acts)
    ensures (forall n :: 0 <= n < |ss| ==> InFlight(ss[n]) <= 1) <==>
      (forall i :: 0 <= i < |acts| ==> !TakesSecond(ss[i], acts[i]))
  {
    if forall i :: 0 <= i < |acts| ==> !TakesSecond(ss[i], acts[i]) {
      forall n | 0 <= n < |ss| ensures InFlight(ss[n]) <= 1 {
        OneWriteUntilSecond(ss, acts, n);
      }
    } else {
      var i :| 0 <= i < |acts| && TakesSecond(ss[i], acts[i]);
      assert StepAt(ss, acts, i) && InFlight(ss[i + 1]) > 1;
    }
  }

  // ---- What the caller can do about it ----

  /** A `SendBytes` that finds the queue empty although a chain exists: the last frame has been taken, but its
      write has not come back, or has and its `SendNext` is still due. */
  predicate Overlaps(s: State, a: Action) {
    a.SendBytes? && s.queue == [] && Chains(s) > 0
  }

  /** Two chains, and frames for both. */
  predicate AtRisk(s: State) {
    Chains(s) > 1 && (s.queue != [] || InFlight(s) > 1)
  }

  /** From here two writes can come to be in flight although no further `SendBytes` overlaps. */
  ghost predicate CanDouble(s: State) {
    exists ss, acts :: Doubles(s, ss, acts)
  }

  ghost predicate Doubles(s: State, ss: seq<State>, acts: seq<Action>) {
    && IsPath(ss, acts) && ss[0] == s && ss[|acts|].writing > 1
    && forall i :: 0 <= i < |acts| ==> !Overlaps(ss[i], acts[i])
  }

  lemma RiskNeedsOverlap(s: State, a: Action)
    requires Enabled(s, a) && !AtRisk(s) && !Overlaps(s, a)
    ensures !AtRisk(Apply(s, a))
  {
  }

  lemma {:induction false} NoRiskWithoutOverlap(ss: seq<State>, acts: seq<Action>, n: nat)
    requires IsPath(ss, acts) && n < |ss| && !AtRisk(ss[0])
    requires forall i :: 0 <= i < n ==> !Overlaps(ss[i], acts[i])
    ensures !AtRisk(ss[n])
  {
    if n > 0 {
      NoRiskWithoutOverlap(ss, acts, n - 1);
      assert StepAt(ss, acts, n - 1);
      RiskNeedsOverlap(ss[n - 1], acts[n - 1]);
    }
  }

  /** The steps to a second write: start the writes of the frames taken, and take one more; a lone frame is joined by
      another first. */
  lemma {:induction false} RiskDoubles(s: State) returns (ss: seq<State>, acts: seq<Action>)
    requires AtRisk(s)
    ensures Doubles(s, ss, acts)
    decreases if InFlight(s) < 2 then 2 - InFlight(s) else 0, if |s.queue| < 2 then 1 else 0, |s.ready|
  {
    if s.writing > 1 {
      ss, acts := [s], [];
    } else {
      var a := if s.ready != [] then StartWrite(0) else if |s.queue| < 2 then SendBytes([]) else SendNext;
      ss, acts := RiskDoubles(Apply(s, a));
      ss, acts := OneStepEarlier(s, a, ss, acts);
    }
  }

  lemma OneStepEarlier(s: State, a: Action, ss: seq<State>, acts: seq<Action>)
      returns (tt: seq<State>, more: seq<Action>)
    requires Enabled(s, a) && !Overlaps(s, a) && Doubles(Apply(s, a), ss, acts)
    ensures Doubles(s, tt, more)
  {
    tt, more := [s] + ss, [a] + acts;
    forall i | 0 <= i < |more|
      ensures StepAt(tt, more, i) && !Overlaps(tt[i], more[i])
    {
      if i > 0 {
        assert StepAt(ss, acts, i - 1) && more[i] == acts[i - 1] && tt[i] == ss[i - 1];
      }
    }
  }

  lemma CanDoubleExactly(s: State)
    ensures CanDouble(s) <==> AtRisk(s)
  {
    if AtRisk(s) {
      var ss, acts := RiskDoubles(s);
    } else {
      forall ss, acts ensures !Doubles(s, ss, acts) {
        if Doubles(s, ss, acts) {
          NoRiskWithoutOverlap(ss, acts, |acts|);
          assert false;
        }
      }
    }
  }

  /** As long as no `SendBytes` has overlapped, there is at most one write in flight and no way to a second one; and a
      `SendBytes` opens such a way if and only if it overlaps. */
  lemma OverlapIsTheCause(ss: seq<State>, acts: seq<Action>, n: nat, payload: Bytes)
    requires IsRun(ss, acts) && n < |ss|
    requires forall i :: 0 <= i < n ==> !Overlaps(ss[i], acts[i])
    ensures InFlight(ss[n]) <= 1 && !CanDouble(ss[n])
    ensures CanDouble(Apply(ss[n], SendBytes(payload))) <==> Overlaps(ss[n], SendBytes(payload))
  {
    ChainsStaySingle(ss, acts, n);
    CanDoubleExactly(ss[n]);
    CanDoubleExactly(Apply(ss[n], SendBytes(payload)));
  }

  lemma {:induction false} ChainsStaySingle(ss: seq<State>, acts: seq<Action>, n: nat)
    requires IsRun(ss, acts) && n < |ss|
    requires forall i :: 0 <= i < n ==> !Overlaps(ss[i], acts[i])
    ensures Chains(ss[n]) <= 1
  {
    if n > 0 {
      ChainsStaySingle(ss, acts, n - 1);
      assert StepAt(ss, acts, n - 1) && !Overlaps(ss[n - 1], acts[n - 1]);
    }
  }

  /** There is never more than one chain in exactly the runs in which no `SendBytes` overlaps. */
  lemma SingleChainExactly(ss: seq<State>, acts: seq<Action>)
    requires IsRun(ss, acts)
    ensures (forall n :: 0 <= n < |ss| ==> Chains(ss[n]) <= 1) <==>
      (forall i :: 0 <= i < |acts| ==> !Overlaps(ss[i], acts[i]))
  {
    if forall i :: 0 <= i < |acts| ==> !Overlaps(ss[i], acts[i]) {
      forall n | 0 <= n < |ss| ensures Chains(ss[n]) <= 1 {
        ChainsStaySingle(ss, acts, n);
      }
    } else {
      var i :| 0 <= i < |acts| && Overlaps(ss[i], acts[i]);
      assert StepAt(ss, acts, i) && Chains(ss[i + 1]) > 1;
    }
  }

  /** Two chains alone do not make two writes: here a `SendBytes` has overlapped and two steps are due, but there was
      never more than one write in flight, and there is no way to a second one unless a `SendBytes` overlaps again. */
  lemma OverlapCanBeHarmless(a: Bytes, b: Bytes) returns (ss: seq<State>, acts: seq<Action>)
    ensures IsRun(ss, acts) && |acts| == 8 && Overlaps(ss[4], acts[4])
    ensures forall n :: 0 <= n < |ss| ==> InFlight(ss[n]) <= 1
    ensures Chains(ss[|acts|]) == 2 && !CanDouble(ss[|acts|])
  {
    acts := [SendBytes(a), SendNext, StartWrite(0), Completed, SendBytes(b), SendNext, StartWrite(0), Completed];
    var s1 := Apply(INITIAL, acts[0]);
    var s2 := Apply(s1, acts[1]);
    var s3 := Apply(s2, acts[2]);
    var s4 := Apply(s3, acts[3]);
    var s5 := Apply(s4, acts[4]);
    var s6 := Apply(s5, acts[5]);
    var s7 := Apply(s6, acts[6]);
    var s8 := Apply(s7, acts[7]);
    ss := [INITIAL, s1, s2, s3, s4, s5, s6, s7, s8];
    CanDoubleExactly(s8);
  }

  // ---- A write error ----

  /** Without a chain, a queue that is not empty stays as it is but for what is added to it: no write starts again. */
  lemma {:induction false} NoChainNoWrite(ss: seq<State>, acts: seq<Action>, m: nat, n: nat)
    requires IsRun(ss, acts) && m <= n < |ss| && Chains(ss[m]) == 0 && ss[m].queue != []
    ensures Chains(ss[n]) == 0 && ss[n].wire == ss[m].wire && ss[m].queue <= ss[n].queue
  {
    if m < n {
      NoChainNoWrite(ss, acts, m, n - 1);
      assert StepAt(ss, acts, n - 1);
    }
  }

  /** A failed write ends its chain.  If no `SendBytes` had overlapped it was the only one, and if frames were waiting
      they are never written, nor is anything that is sent afterwards. */
  lemma FailedWriteStrands(ss: seq<State>, acts: seq<Action>, m: nat, n: nat)
    requires IsRun(ss, acts) && m < n < |ss| && acts[m] == Failed
    requires forall i :: 0 <= i < m ==> !Overlaps(ss[i], acts[i])
    ensures Chains(ss[m + 1]) == 0
    ensures ss[m].queue != [] ==> Chains(ss[n]) == 0 && ss[n].wire == ss[m].wire && ss[m].queue <= ss[n].queue
  {
    ChainsStaySingle(ss, acts, m);
    assert StepAt(ss, acts, m);
    if ss[m].queue != [] {
      NoChainNoWrite(ss, acts, m + 1, n);
    }
  }

  // ---- Order ----

  /** As long as no `SendNext` takes a second frame the writes start in the order in which the frames were queued. */
  lemma {:induction false} WrittenInOrder(ss: seq<State>, acts: seq<Action>, n: nat)
    requires IsRun(ss, acts) && n < |ss|
    requires forall i :: 0 <= i < n ==> !TakesSecond(ss[i], acts[i])
    ensures ss[n].popped == ss[n].wire + ss[n].ready
    ensures ss[n].enqueued == ss[n].wire + ss[n].ready + ss[n].queue
  {
    NoStrandedFrames(ss, acts, n);
    if n > 0 {
      WrittenInOrder(ss, acts, n - 1);
      OneWriteUntilSecond(ss, acts, n - 1);
      assert StepAt(ss, acts, n - 1);
      OrderKept(ss[n - 1], acts[n - 1]);
    }
  }

  lemma OrderKept(s: State, a: Action)
    requires Enabled(s, a) && s.popped == s.wire + s.ready && InFlight(s) <= 1
    ensures var t := Apply(s, a); t.popped == t.wire + t.ready
  {
    if a.StartWrite? {
      assert s.ready == [s.ready[0]];
    } else if a.SendNext? && s.queue != [] {
      assert s.wire + (s.ready + [s.queue[0]]) == s.popped + [s.queue[0]];
    }
  }

  /** From `SendBytes` to the peer: as long as there is one write at a time, whatever part of the written bytes has
      reached the peer, its reader has delivered a prefix of the payloads in the order in which they were sent. */
  lemma PeerReadsInOrder(ss: seq<State>, acts: seq<Action>, n: nat, arrived: Bytes)
    requires IsRun(ss, acts) && n < |ss|
    requires forall i :: 0 <= i < n ==> !TakesSecond(ss[i], acts[i])
    requires LengthsSurvive(ss[n].wire)
    requires arrived <= Frames(ss[n].wire)
    ensures Read(arrived).delivered <= ss[n].enqueued
  {
    WrittenInOrder(ss, acts, n);
    DeliversPrefixOfSent(ss[n].wire, arrived);
  }

  /** Two frames taken, and no write started yet. */
  lemma TwoTaken(a: Bytes, b: Bytes) returns (ss: seq<State>, acts: seq<Action>)
    ensures IsRun(ss, acts) && ss[|acts|] == State([], 0, [a, b], 0, [], 0, [a, b], [a, b])
  {
    acts := [SendBytes(a), SendNext, SendBytes(b), SendNext];
    var s1 := Apply(INITIAL, acts[0]);
    var s2 := Apply(s1, acts[1]);
    var s3 := Apply(s2, acts[2]);
    var s4 := Apply(s3, acts[3]);
    ss := [INITIAL, s1, s2, s3, s4];
  }

  lemma Then(ss: seq<State>, acts: seq<Action>, a: Action) returns (tt: seq<State>, more: seq<Action>)
    requires IsRun(ss, acts) && Enabled(ss[|acts|], a)
    ensures IsRun(tt, more) && tt[|more|] == Apply(ss[|acts|], a)
  {
    tt, more := ss + [Apply(ss[|acts|], a)], acts + [a];
    forall i | 0 <= i < |more| ensures StepAt(tt, more, i) {
      assert i < |acts| ==> StepAt(ss, acts, i);
    }
  }

  /** Without that, two writes can be in flight and start in the wrong order. */
  lemma WritesCanOvertake(a: Bytes, b: Bytes) returns (ss: seq<State>, acts: seq<Action>)
    ensures IsRun(ss, acts)
    ensures var s := ss[|acts|];
      s.enqueued == [a, b] && s.wire == [b, a] && s.writing == 2 && s.failed == 0
  {
    ss, acts := TwoTaken(a, b);
    ss, acts := Then(ss, acts, StartWrite(1));
    assert ss[|acts|].ready == [a];
    ss, acts := Then(ss, acts, StartWrite(0));
  }

  // ---- The object ----

  function FramesOf(payloads: seq<Bytes>): seq<Bytes> {
    seq(|payloads|, i requires 0 <= i < |payloads| => Frame(payloads[i]))
  }

  /** The locked regions of `SendBytes` and `SendNext`.  `state` is the state of the queue with its chains. */
  class FrameSender {
    var outgoing: seq<Bytes>
    ghost var state: State

    ghost predicate Valid()
      reads this
    {
      outgoing == FramesOf(state.queue)
    }

    constructor ()
      ensures Valid() && state == INITIAL
    {
      outgoing, state := [], INITIAL;
    }

    /** Queues the frame.  The caller goes on to `SendNext` exactly when the queue was empty. */
    method SendBytes(payload: Bytes) returns (startChain: bool)
      requires Valid()
      modifies this
      ensures Valid() && state == Apply(old(state), Action.SendBytes(payload))
      ensures outgoing == old(outgoing) + [Frame(payload)]
      ensures var frame := outgoing[|outgoing| - 1];
        |frame| == 4 + |payload| && IsHeader(frame[..4], |payload| % 0x1_0000_0000) && frame[4..] == payload
      ensures startChain <==> old(outgoing) == []
      ensures startChain <==> state.due == old(state.due) + 1
    {
      HostToNetworkExactly(|payload| % 0x1_0000_0000);
      var buffer: Bytes := HostToNetwork(|payload| % 0x1_0000_0000);
      buffer := buffer + payload;
      outgoing := outgoing + [buffer];
      startChain := !(|outgoing| > 1);
      state := Apply(state, Action.SendBytes(payload));
    }

    /** Takes the frame to write next, if there is one. */
    method SendNext() returns (taken: bool, frame: Bytes)
      requires Valid() && Enabled(state, Action.SendNext)
      modifies this
      ensures Valid() && state == Apply(old(state), Action.SendNext)
      ensures taken <==> old(outgoing) != []
      ensures taken ==> old(outgoing) == [frame] + outgoing && frame == Frame(state.ready[|state.ready| - 1])
    {
      taken, frame := false, [];
      state := Apply(state, Action.SendNext);
      if |outgoing| == 0 {
        return;
      }
      taken, frame := true, outgoing[0];
      outgoing := outgoing[1..];
    }
  }
}
