/**
 The whole path of a message: the outgoing queue of the peer of every connection, the bytes on their way, and the
 receiving side up to the message handler.  A write that the peer starts puts its frame on the connection.
 */
module EndToEnd {
  import opened Framing
  import Q = SendQueue
  import D = Delivery

  datatype State<P, M> = State(peers: map<D.ConnectionId, Q.State>, net: D.State<P, M>)

  /** `Write` is the `StartWrite` of a peer; `Peer` are its other steps, `Net` those of the receiving side. */
  datatype Action<P> =
    | Connect
    | Peer(conn: D.ConnectionId, step: Q.Action)
    | Write(conn: D.ConnectionId, index: nat)
    | Net(event: D.Action<P>)

  ghost predicate Enabled<P(!new), M>(s: State<P, M>, a: Action<P>) {
    match a
    case Connect => true
    case Peer(id, step) => id in s.peers && !step.StartWrite? && Q.Enabled(s.peers[id], step)
    case Write(id, i) => id in s.peers && Q.Enabled(s.peers[id], Q.StartWrite(i)) && id in s.net.links
    case Net(step) => !step.Connect? && !step.PeerSends? && D.Enabled(s.net, step)
  }

  ghost function Apply<P(!new), M>(codec: D.Codec<P, M>, s: State<P, M>, a: Action<P>): State<P, M>
    requires Enabled(s, a)
  {
    match a
    case Connect => State(s.peers[s.net.nextId := Q.INITIAL], D.Apply(codec, s.net, D.Connect))
    case Peer(id, step) => s.(peers := s.peers[id := Q.Apply(s.peers[id], step)])
    case Write(id, i) =>
      State(s.peers[id := Q.Apply(s.peers[id], Q.StartWrite(i))],
            D.Apply(codec, s.net, D.PeerSends(id, s.peers[id].ready[i])))
    case Net(step) => s.(net := D.Apply(codec, s.net, step))
  }

  ghost predicate StepAt<P(!new), M>(codec: D.Codec<P, M>, ss: seq<State<P, M>>, acts: seq<Action<P>>, i: nat)
    requires i < |acts| < |ss|
  {
    Enabled(ss[i], acts[i]) && ss[i + 1] == Apply(codec, ss[i], acts[i])
  }

  ghost predicate IsRun<P(!new), M>(codec: D.Codec<P, M>, ss: seq<State<P, M>>, acts: seq<Action<P>>) {
    && |ss| == |acts| + 1
    && ss[0] == State(map[], D.Initial())
    && forall i :: 0 <= i < |acts| ==> StepAt(codec, ss, acts, i)
  }

  /** The receiving side of a run is a run of `Delivery`. */
  lemma {:induction false} NetRun<P(!new), M>(codec: D.Codec<P, M>, ss: seq<State<P, M>>, acts: seq<Action<P>>, n: nat)
      returns (tt: seq<D.State<P, M>>, bs: seq<D.Action<P>>)
    requires IsRun(codec, ss, acts) && n < |ss|
    ensures D.IsRun(codec, tt, bs) && tt[|bs|] == ss[n].net
  {
    if n == 0 {
      tt, bs := [ss[0].net], [];
    } else {
      tt, bs := NetRun(codec, ss, acts, n - 1);
      assert StepAt(codec, ss, acts, n - 1);
      match acts[n - 1]
      case Connect => tt, bs := D.Then(codec, tt, bs, D.Connect);
      case Peer(_, _) =>
      case Write(id, i) => tt, bs := D.Then(codec, tt, bs, D.PeerSends(id, ss[n - 1].peers[id].ready[i]));
      case Net(step) => tt, bs := D.Then(codec, tt, bs, step);
    }
  }

  // ---- What a peer has written is what its connection carries ----

  ghost predicate WireOk<P, M>(s: State<P, M>, id: D.ConnectionId) {
    && (id in s.peers <==> id in s.net.links)
    && (id in s.peers ==> s.net.links[id].sent == s.peers[id].wire)
  }

  lemma NetKeepsSent<P(!new), M>(codec: D.Codec<P, M>, s: D.State<P, M>, step: D.Action<P>, id: D.ConnectionId)
    requires D.Enabled(s, step) && !step.Connect? && !step.PeerSends?
    ensures var t := D.Apply(codec, s, step);
      (id in t.links <==> id in s.links) && (id in s.links ==> t.links[id].sent == s.links[id].sent)
  {
  }

  lemma WireKept<P(!new), M>(codec: D.Codec<P, M>, s: State<P, M>, a: Action<P>, id: D.ConnectionId)
    requires Enabled(s, a) && WireOk(s, id)
    ensures WireOk(Apply(codec, s, a), id)
  {
    if a.Net? {
      NetKeepsSent(codec, s.net, a.event, id);
    }
  }

  // ---- Order at the peer ----

  /** A `SendNext` of the peer takes a frame although the write of another has not come back. */
  ghost predicate TakesSecondAt<P, M>(ss: seq<State<P, M>>, acts: seq<Action<P>>, i: nat, id: D.ConnectionId)
    requires i < |acts| < |ss|
  {
    acts[i].Peer? && acts[i].conn == id && id in ss[i].peers && Q.TakesSecond(ss[i].peers[id], acts[i].step)
  }

  predicate OrderOk(q: Q.State) {
    Q.InFlight(q) <= 1 && q.popped == q.wire + q.ready && q.enqueued == q.popped + q.queue
  }

  lemma OrderKept(q: Q.State, a: Q.Action)
    requires Q.Enabled(q, a) && OrderOk(q) && !Q.TakesSecond(q, a)
    ensures OrderOk(Q.Apply(q, a))
  {
    Q.OrderKept(q, a);
    if a.SendBytes? {
      assert q.popped + (q.queue + [a.payload]) == q.enqueued + [a.payload];
    } else if a.SendNext? && q.queue != [] {
      assert q.popped + q.queue == q.popped + [q.queue[0]] + q.queue[1..];
    }
  }

  lemma PeerKept<P(!new), M>(
      codec: D.Codec<P, M>, ss: seq<State<P, M>>, acts: seq<Action<P>>, n: nat, id: D.ConnectionId)
    requires IsRun(codec, ss, acts) && n < |acts| && !TakesSecondAt(ss, acts, n, id)
    requires WireOk(ss[n], id) && (id in ss[n].peers ==> OrderOk(ss[n].peers[id]))
    ensures WireOk(ss[n + 1], id) && (id in ss[n + 1].peers ==> OrderOk(ss[n + 1].peers[id]))
  {
    assert StepAt(codec, ss, acts, n);
    WireKept(codec, ss[n], acts[n], id);
    match acts[n]
    case Peer(c, step) =>
      if c == id {
        OrderKept(ss[n].peers[id], step);
      }
    case Write(c, i) =>
      if c == id {
        OrderKept(ss[n].peers[id], Q.StartWrite(i));
      }
    case _ =>
  }

  lemma {:induction false} PeersHold<P(!new), M>(
      codec: D.Codec<P, M>, ss: seq<State<P, M>>, acts: seq<Action<P>>, n: nat, id: D.ConnectionId)
    requires IsRun(codec, ss, acts) && n < |ss| && forall i :: 0 <= i < n ==> !TakesSecondAt(ss, acts, i, id)
    ensures WireOk(ss[n], id) && (id in ss[n].peers ==> OrderOk(ss[n].peers[id]))
  {
    if n > 0 {
      PeersHold(codec, ss, acts, n - 1, id);
      assert !TakesSecondAt(ss, acts, n - 1, id);
      PeerKept(codec, ss, acts, n - 1, id);
    }
  }

  /** From `SendBytes` to the message handler, in every run: as long as no `SendNext` of the peer of a connection has
      taken a second frame, the messages handled for the connection are a prefix of those in the payloads that were
      passed to the peer's `SendBytes`, in that order. */
  lemma HandledInOrderOfSendBytes<P(!new), M>(
      codec: D.Codec<P, M>, ss: seq<State<P, M>>, acts: seq<Action<P>>, n: nat, id: D.ConnectionId)
    requires IsRun(codec, ss, acts) && n < |ss| && id in ss[n].peers
    requires forall i :: 0 <= i < n ==> !TakesSecondAt(ss, acts, i, id)
    requires LengthsSurvive(ss[n].peers[id].enqueued)
    ensures D.On(id, ss[n].net.handled) <= D.Messages(codec, id, ss[n].peers[id].enqueued)
  {
    PeersHold(codec, ss, acts, n, id);
    var wire, enqueued := ss[n].peers[id].wire, ss[n].peers[id].enqueued;
    var tt, bs := NetRun(codec, ss, acts, n);
    SurvivePrefix(wire, enqueued);
    D.HandledInSendOrder(codec, tt, bs, |bs|, id);
    D.MessagesGrow(codec, id, wire, enqueued);
  }
}
