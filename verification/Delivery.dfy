/**
 From bytes to handlers: the frames of every connection are decoded and dispatched to one executor, whose
 consumer decodes the payloads and hands the messages on.
 */
module Delivery {
  import opened Wrappers
  import opened Framing
  import E = Executor

  type ConnectionId = nat
  type TypeId = nat

  /** The codec is arbitrary.  `registered` are the type ids in the processor's lookup table. */
  datatype Codec<!P, !M> = Codec(
    decodeEnvelope: Bytes -> Option<(TypeId, P)>,
    decode: (TypeId, P) -> Option<M>,
    registered: set<TypeId>)

  /** The tasks on the executor: a message to deliver, or a task somebody else posted. */
  datatype Work<+P> = Deliver(conn: ConnectionId, typeId: TypeId, payload: P) | Foreign(code: nat)

  datatype Handled<+M> = Handled(conn: ConnectionId, typeId: TypeId, message: M)

  /** What `Process` posts for a frame: nothing when the envelope does not decode or its type is not registered. */
  function Dispatch<P, M>(codec: Codec<P, M>, id: ConnectionId, frame: Bytes): Option<Work<P>> {
    match codec.decodeEnvelope(frame)
    case None => None
    case Some((typeId, payload)) => if typeId in codec.registered then Some(Deliver(id, typeId, payload)) else None
  }

  /** The executor when the task has been posted, if there is one. */
  ghost function Posted<P>(s: E.State<Work<P>>, work: Option<Work<P>>): E.State<Work<P>> {
    match work
    case None => s
    case Some(w) => E.Apply(s, E.Submit(E.Fn(w)))
  }

  /** What running a task hands to the message handler: nothing when the payload does not decode. */
  function Outcome<P, M>(codec: Codec<P, M>, task: E.Task<Work<P>>): seq<Handled<M>> {
    match task
    case Fn(Deliver(id, typeId, payload)) =>
      (match codec.decode(typeId, payload)
       case None => []
       case Some(message) => [Handled(id, typeId, message)])
    case _ => []
  }

  /** The envelope of the frame decodes, and its type is registered. */
  predicate IsKnown<P, M>(codec: Codec<P, M>, frame: Bytes) {
    match codec.decodeEnvelope(frame)
    case None => false
    case Some((typeId, _)) => typeId in codec.registered
  }

  class TcpMessageProcessor<!P(==), !M> {
    const codec: Codec<P, M>
    const executor: E.QueuedExecutor<Work<P>>
    var handled: seq<Handled<M>>

    constructor (codec: Codec<P, M>, executor: E.QueuedExecutor<Work<P>>)
      ensures this.codec == codec && this.executor == executor && handled == []
    {
      this.codec, this.executor, handled := codec, executor, [];
    }

    method Process(id: ConnectionId, bytes: Bytes)
      requires executor.Valid()
      modifies executor
      ensures executor.Valid()
      ensures executor.state == Posted(old(executor.state), Dispatch(codec, id, bytes))
      ensures executor.running == old(executor.running) && executor.state.consumed == old(executor.state.consumed)
      ensures forall typeId, payload ::
        codec.decodeEnvelope(bytes) == Some((typeId, payload)) && typeId in codec.registered && executor.running ==>
          && executor.tasks == old(executor.tasks) + [E.Fn(Deliver(id, typeId, payload))]
          && executor.state.accepted == old(executor.state.accepted) + [E.Fn(Deliver(id, typeId, payload))]
      ensures !IsKnown(codec, bytes) || !executor.running ==>
        executor.tasks == old(executor.tasks) && executor.state.accepted == old(executor.state.accepted)
    {
      var envelope := codec.decodeEnvelope(bytes);
      if envelope.None? {
        return;
      }
      var typeId := envelope.value.0;
      if typeId !in codec.registered {
        return;
      }
      executor.Post(E.Fn(Deliver(id, typeId, envelope.value.1)));
    }

    /** The posted task. */
    method HandleMessage(id: ConnectionId, typeId: TypeId, payload: P)
      modifies this
      ensures handled == old(handled) + Outcome(codec, E.Fn(Deliver(id, typeId, payload)))
      ensures match codec.decode(typeId, payload)
        case None => handled == old(handled)
        case Some(message) => handled == old(handled) + [Handled(id, typeId, message)]
    {
      var message := codec.decode(typeId, payload);
      if message.None? {
        return;
      }
      handled := handled + [Handled(id, typeId, message.value)];
    }
  }

  class TcpSystem<!P(==), !M, C(==)> {
    const processor: TcpMessageProcessor<P, M>
    var connections: map<ConnectionId, C>
    var nextConnectionId: ConnectionId

    ghost predicate Valid()
      reads this
    {
      forall id :: id in connections ==> id < nextConnectionId
    }

    constructor (processor: TcpMessageProcessor<P, M>)
      ensures Valid() && this.processor == processor && connections == map[] && nextConnectionId == 1
    {
      this.processor, connections, nextConnectionId := processor, map[], 1;
    }

    /** A connection gets an id that no connection has had. */
    method CreateConnection(connection: C) returns (id: ConnectionId)
      requires Valid()
      modifies this
      ensures Valid()
      ensures id == old(nextConnectionId) < nextConnectionId && id !in old(connections)
      ensures connections == old(connections)[id := connection]
    {
      id := nextConnectionId;
      nextConnectionId := nextConnectionId + 1;
      connections := connections[id := connection];
    }

    /** `OnDisconnected` may report the same connection more than once. */
    method RemoveConnection(id: ConnectionId)
      requires Valid()
      modifies this`connections
      ensures Valid() && connections == old(connections) - {id}
    {
      connections := connections - {id};
    }

    method ReceiveMessage(id: ConnectionId, bytes: Bytes)
      requires processor.executor.Valid()
      modifies processor.executor
      ensures processor.executor.Valid()
      ensures processor.executor.state == Posted(old(processor.executor.state), Dispatch(processor.codec, id, bytes))
      ensures forall typeId, payload ::
        processor.codec.decodeEnvelope(bytes) == Some((typeId, payload)) && typeId in processor.codec.registered
        && processor.executor.running ==>
          processor.executor.tasks == old(processor.executor.tasks) + [E.Fn(Deliver(id, typeId, payload))]
      ensures !IsKnown(processor.codec, bytes) || !processor.executor.running ==>
        processor.executor.tasks == old(processor.executor.tasks)
    {
      processor.Process(id, bytes);
    }
  }

  // ---- All connections at once ----

  /** A connection as its peer and its reader see it: the payloads whose frames the peer has written, in that order,
      the bytes that have arrived, and how many of the frames read from them have been processed. */
  datatype Link = Link(sent: seq<Bytes>, arrived: Bytes, processed: nat)

  datatype State<P, M> = State(
    links: map<ConnectionId, Link>,
    table: set<ConnectionId>,
    nextId: ConnectionId,
    executor: E.State<Work<P>>,
    handled: seq<Handled<M>>)

  datatype Action<P> =
    | Connect
    | Drop(conn: ConnectionId)
    | PeerSends(conn: ConnectionId, payload: Bytes)
    | Arrive(conn: ConnectionId, chunk: Bytes)
    | Receive(conn: ConnectionId)
    | Execute(step: E.Action<Work<P>>)

  function Delivered(link: Link): seq<Bytes> {
    Read(link.arrived).delivered
  }

  /** Other users of the executor post anything but deliveries. */
  predicate IsForeign<P(!new)>(step: E.Action<Work<P>>) {
    step.Submit? ==> step.task.Null? || step.task.body.Foreign?
  }

  ghost predicate Enabled<P(!new), M>(s: State<P, M>, a: Action<P>) {
    match a
    case Connect => true
    case Drop(id) => id in s.table
    case PeerSends(id, _) => id in s.links
    case Arrive(id, chunk) => id in s.links && s.links[id].arrived + chunk <= Frames(s.links[id].sent)
    case Receive(id) => id in s.links && s.links[id].processed < |Delivered(s.links[id])|
    case Execute(step) => E.Enabled(s.executor, step) && IsForeign(step)
  }

  ghost function Apply<P(!new), M>(codec: Codec<P, M>, s: State<P, M>, a: Action<P>): State<P, M>
    requires Enabled(s, a)
  {
    match a
    case Connect =>
      s.(links := s.links[s.nextId := Link([], [], 0)], table := s.table + {s.nextId}, nextId := s.nextId + 1)
    case Drop(id) =>
      s.(table := s.table - {id})
    case PeerSends(id, payload) =>
      s.(links := s.links[id := s.links[id].(sent := s.links[id].sent + [payload])])
    case Arrive(id, chunk) =>
      s.(links := s.links[id := s.links[id].(arrived := s.links[id].arrived + chunk)])
    case Receive(id) =>
      var link := s.links[id];
      s.(links := s.links[id := link.(processed := link.processed + 1)],
         executor := Posted(s.executor, Dispatch(codec, id, Delivered(link)[link.processed])))
    case Execute(step) =>
      var t := s.(executor := E.Apply(s.executor, step));
      if step.Consume? then t.(handled := s.handled + Outcome(codec, s.executor.phase.rest[0])) else t
  }

  function Initial<P, M>(): State<P, M> {
    State(map[], {}, 1, E.Initial(), [])
  }

  ghost predicate IsRun<P(!new), M>(codec: Codec<P, M>, ss: seq<State<P, M>>, acts: seq<Action<P>>) {
    && |ss| == |acts| + 1
    && ss[0] == Initial()
    && forall i {:trigger acts[i]} :: 0 <= i < |acts| ==>
         Enabled(ss[i], acts[i]) && ss[i + 1] == Apply(codec, ss[i], acts[i])
  }

  lemma Then<P(!new), M>(codec: Codec<P, M>, ss: seq<State<P, M>>, acts: seq<Action<P>>, a: Action<P>)
      returns (tt: seq<State<P, M>>, more: seq<Action<P>>)
    requires IsRun(codec, ss, acts) && Enabled(ss[|acts|], a)
    ensures IsRun(codec, tt, more) && tt[|more|] == Apply(codec, ss[|acts|], a)
  {
    tt, more := ss + [Apply(codec, ss[|acts|], a)], acts + [a];
  }

  // ---- What should be handled on a connection ----

  /** The messages in a list of frames: those whose envelope decodes, whose type is registered and whose payload
      decodes, in order. */
  function Messages<P, M>(codec: Codec<P, M>, id: ConnectionId, frames: seq<Bytes>): seq<Handled<M>> {
    if frames == [] then [] else
      Messages(codec, id, frames[..|frames| - 1]) + MessageOf(codec, id, frames[|frames| - 1])
  }

  function MessageOf<P, M>(codec: Codec<P, M>, id: ConnectionId, frame: Bytes): seq<Handled<M>> {
    match Dispatch(codec, id, frame)
    case None => []
    case Some(work) => Outcome(codec, E.Fn(work))
  }

  /** The message a frame carries: its envelope decodes to a registered type, and its payload to the message. */
  ghost predicate Carries<P, M>(codec: Codec<P, M>, id: ConnectionId, frame: Bytes, h: Handled<M>) {
    && IsKnown(codec, frame) && h.conn == id && h.typeId == codec.decodeEnvelope(frame).value.0
    && codec.decode(h.typeId, codec.decodeEnvelope(frame).value.1) == Some(h.message)
  }

  lemma MessageExactly<P, M>(codec: Codec<P, M>, id: ConnectionId, frame: Bytes)
    ensures |MessageOf(codec, id, frame)| <= 1
    ensures forall h :: Carries(codec, id, frame, h) <==> MessageOf(codec, id, frame) == [h]
    ensures MessageOf(codec, id, frame) == [] <==>
      match codec.decodeEnvelope(frame)
      case None => true
      case Some((typeId, payload)) => typeId !in codec.registered || codec.decode(typeId, payload) == None
  {
  }

  /** `whole` are the elements of the parts, none or one each: `at` are the parts that have one, in order. */
  ghost predicate ArePicked<T>(parts: seq<seq<T>>, whole: seq<T>, at: seq<nat>) {
    && |whole| == |at|
    && (forall i, j :: 0 <= i < j < |at| ==> at[i] < at[j])
    && (forall i :: 0 <= i < |at| ==> at[i] < |parts| && parts[at[i]] == [whole[i]])
    && (forall k :: 0 <= k < |parts| && k !in at ==> parts[k] == [])
  }

  lemma PickOneMore<T>(parts: seq<seq<T>>, whole: seq<T>, at: seq<nat>, part: seq<T>)
    requires ArePicked(parts, whole, at) && |part| <= 1
    ensures ArePicked(parts + [part], whole + part, if part == [] then at else at + [|parts|])
  {
    var after := if part == [] then at else at + [|parts|];
    assert part == [] ==> whole + part == whole;
    forall k | 0 <= k < |parts| + 1 && k !in after ensures (parts + [part])[k] == [] {
      assert k < |parts| ==> k !in at;
    }
  }

  function PartsOf<P, M>(codec: Codec<P, M>, id: ConnectionId, frames: seq<Bytes>): seq<seq<Handled<M>>> {
    seq(|frames|, k requires 0 <= k < |frames| => MessageOf(codec, id, frames[k]))
  }

  lemma {:induction false} MessagesArePicked<P, M>(codec: Codec<P, M>, id: ConnectionId, frames: seq<Bytes>)
      returns (at: seq<nat>)
    ensures ArePicked(PartsOf(codec, id, frames), Messages(codec, id, frames), at)
  {
    at := [];
    if frames != [] {
      var front, m := frames[..|frames| - 1], MessageOf(codec, id, frames[|frames| - 1]);
      at := MessagesArePicked(codec, id, front);
      MessageExactly(codec, id, frames[|frames| - 1]);
      PickOneMore(PartsOf(codec, id, front), Messages(codec, id, front), at, m);
      assert PartsOf(codec, id, frames) == PartsOf(codec, id, front) + [m];
      at := if m == [] then at else at + [|front|];
    }
  }

  /** The messages in a list of frames are those that its frames carry, one for each that carries one, in order. */
  lemma MessagesExactly<P, M(!new)>(codec: Codec<P, M>, id: ConnectionId, frames: seq<Bytes>) returns (at: seq<nat>)
    ensures |Messages(codec, id, frames)| == |at|
    ensures forall i, j :: 0 <= i < j < |at| ==> at[i] < at[j]
    ensures forall i :: 0 <= i < |at| ==>
      at[i] < |frames| && Carries(codec, id, frames[at[i]], Messages(codec, id, frames)[i])
    ensures forall k, h :: 0 <= k < |frames| && Carries(codec, id, frames[k], h) ==> k in at
  {
    at := MessagesArePicked(codec, id, frames);
    var parts := PartsOf(codec, id, frames);
    forall i | 0 <= i < |at| ensures Carries(codec, id, frames[at[i]], Messages(codec, id, frames)[i]) {
      assert parts[at[i]] == [Messages(codec, id, frames)[i]];
      MessageExactly(codec, id, frames[at[i]]);
    }
    forall k, h | 0 <= k < |frames| && Carries(codec, id, frames[k], h) ensures k in at {
      MessageExactly(codec, id, frames[k]);
      assert parts[k] == [h];
    }
  }

  function On<M>(id: ConnectionId, hs: seq<Handled<M>>): seq<Handled<M>> {
    if hs == [] then [] else On(id, hs[..|hs| - 1]) + if hs[|hs| - 1].conn == id then [hs[|hs| - 1]] else []
  }

  /** What was handled for a connection is all that was handled for it, in order. */
  lemma {:induction false} OnExactly<M>(id: ConnectionId, hs: seq<Handled<M>>) returns (at: seq<nat>)
    ensures |On(id, hs)| == |at|
    ensures forall i, j :: 0 <= i < j < |at| ==> at[i] < at[j]
    ensures forall i :: 0 <= i < |at| ==> at[i] < |hs| && On(id, hs)[i] == hs[at[i]] && hs[at[i]].conn == id
    ensures forall k :: 0 <= k < |hs| && hs[k].conn == id ==> k in at
  {
    if hs == [] {
      at := [];
    } else {
      at := OnExactly(id, hs[..|hs| - 1]);
      if hs[|hs| - 1].conn == id {
        at := at + [|hs| - 1];
      }
    }
  }

  /** What a list of tasks hands on for one connection. */
  function OutcomesOn<P, M>(codec: Codec<P, M>, id: ConnectionId, tasks: seq<E.Task<Work<P>>>): seq<Handled<M>> {
    if tasks == [] then [] else
      OutcomesOn(codec, id, tasks[..|tasks| - 1]) + On(id, Outcome(codec, tasks[|tasks| - 1]))
  }

  lemma {:induction false} MessagesGrow<P, M>(codec: Codec<P, M>, id: ConnectionId, fs: seq<Bytes>, gs: seq<Bytes>)
    requires fs <= gs
    ensures Messages(codec, id, fs) <= Messages(codec, id, gs)
  {
    if |fs| < |gs| {
      MessagesGrow(codec, id, fs, gs[..|gs| - 1]);
    } else {
      assert fs == gs;
    }
  }

  lemma {:induction false} OutcomesGrow<P, M>(
      codec: Codec<P, M>, id: ConnectionId, ts: seq<E.Task<Work<P>>>, us: seq<E.Task<Work<P>>>)
    requires ts <= us
    ensures OutcomesOn(codec, id, ts) <= OutcomesOn(codec, id, us)
  {
    if |ts| < |us| {
      OutcomesGrow(codec, id, ts, us[..|us| - 1]);
    } else {
      assert ts == us;
    }
  }

  lemma OutcomesOneMore<P, M>(codec: Codec<P, M>, id: ConnectionId, ts: seq<E.Task<Work<P>>>, t: E.Task<Work<P>>)
    ensures OutcomesOn(codec, id, ts + [t]) == OutcomesOn(codec, id, ts) + On(id, Outcome(codec, t))
  {
    assert (ts + [t])[..|ts|] == ts;
  }

  lemma OnOutcome<P, M>(codec: Codec<P, M>, id: ConnectionId, hs: seq<Handled<M>>, t: E.Task<Work<P>>)
    ensures On(id, hs + Outcome(codec, t)) == On(id, hs) + On(id, Outcome(codec, t))
  {
    var o := Outcome(codec, t);
    if o == [] {
      assert hs + o == hs;
    } else {
      assert (hs + o)[..|hs|] == hs;
      assert o[..0] == [];
    }
  }

  // ---- The invariant ----

  ghost predicate LinkInv<P(!new), M>(codec: Codec<P, M>, s: State<P, M>, id: ConnectionId) {
    var posted := OutcomesOn(codec, id, s.executor.accepted);
    if id !in s.links then posted == [] && id !in s.table
    else
      var link := s.links[id];
      && id < s.nextId
      && link.arrived <= Frames(link.sent)
      && link.processed <= |Delivered(link)|
      && var due := Messages(codec, id, Delivered(link)[..link.processed]);
      posted <= due && (s.executor.running ==> posted == due)
  }

  ghost predicate Inv<P(!new), M>(codec: Codec<P, M>, s: State<P, M>, id: ConnectionId) {
    && E.Inv(s.executor)
    && On(id, s.handled) == OutcomesOn(codec, id, s.executor.consumed)
    && LinkInv(codec, s, id)
  }

  lemma FramesMonotone(payloads: seq<Bytes>, payload: Bytes)
    ensures Frames(payloads) <= Frames(payloads + [payload])
  {
    FramesConcat(payloads, [payload]);
  }

  lemma HandledKept<P(!new), M>(codec: Codec<P, M>, s: State<P, M>, a: Action<P>, id: ConnectionId)
    requires Inv(codec, s, id) && Enabled(s, a)
    ensures var t := Apply(codec, s, a);
      E.Inv(t.executor) && On(id, t.handled) == OutcomesOn(codec, id, t.executor.consumed)
  {
    match a
    case Receive(conn) =>
      var link := s.links[conn];
      match Dispatch(codec, conn, Delivered(link)[link.processed]) {
        case None =>
        case Some(work) => E.InvKept(s.executor, E.Submit(E.Fn(work)));
      }
    case Execute(step) =>
      E.InvKept(s.executor, step);
      if step.Consume? {
        OutcomesOneMore(codec, id, s.executor.consumed, s.executor.phase.rest[0]);
        OnOutcome(codec, id, s.handled, s.executor.phase.rest[0]);
      }
    case _ =>
  }

  /** What a frame adds to the accepted tasks of its own connection, and of no other. */
  lemma PostedPart<P, M>(codec: Codec<P, M>, conn: ConnectionId, id: ConnectionId, frame: Bytes)
    ensures match Dispatch(codec, conn, frame)
            case None => MessageOf(codec, conn, frame) == []
            case Some(work) =>
              On(id, Outcome(codec, E.Fn(work))) == if conn == id then MessageOf(codec, conn, frame) else []
  {
  }

  lemma SubmitKept<P(!new), M>(codec: Codec<P, M>, e: E.State<Work<P>>, task: E.Task<Work<P>>, id: ConnectionId)
    ensures var f := E.Apply(e, E.Submit(task));
      && f.running == e.running
      && OutcomesOn(codec, id, f.accepted) ==
         OutcomesOn(codec, id, e.accepted) + if e.running then On(id, Outcome(codec, task)) else []
  {
    OutcomesOneMore(codec, id, e.accepted, task);
  }

  lemma MessagesOneMore<P, M>(codec: Codec<P, M>, id: ConnectionId, frames: seq<Bytes>, k: nat)
    requires k < |frames|
    ensures Messages(codec, id, frames[..k + 1]) == Messages(codec, id, frames[..k]) + MessageOf(codec, id, frames[k])
  {
    assert frames[..k + 1][..k] == frames[..k];
  }

  /** What processing one frame of `conn` adds to the tasks of `id`. */
  lemma PostedKept<P(!new), M>(
      codec: Codec<P, M>, e: E.State<Work<P>>, conn: ConnectionId, id: ConnectionId, frame: Bytes)
    ensures var f := Posted(e, Dispatch(codec, conn, frame));
      && f.running == e.running
      && OutcomesOn(codec, id, f.accepted) == OutcomesOn(codec, id, e.accepted) +
         if e.running && conn == id then MessageOf(codec, conn, frame) else []
  {
    PostedPart(codec, conn, id, frame);
    match Dispatch(codec, conn, frame) {
      case None =>
      case Some(work) => SubmitKept(codec, e, E.Fn(work), id);
    }
  }

  lemma ReceiveKept<P(!new), M>(codec: Codec<P, M>, s: State<P, M>, conn: ConnectionId, id: ConnectionId)
    requires LinkInv(codec, s, id) && Enabled(s, Receive(conn))
    ensures LinkInv(codec, Apply(codec, s, Receive(conn)), id)
  {
    var link := s.links[conn];
    var frames, k := Delivered(link), link.processed;
    PostedKept(codec, s.executor, conn, id, frames[k]);
    if conn == id {
      MessagesOneMore(codec, id, frames, k);
    }
  }

  lemma ArriveKept<P(!new), M>(codec: Codec<P, M>, s: State<P, M>, conn: ConnectionId, chunk: Bytes, id: ConnectionId)
    requires LinkInv(codec, s, id) && Enabled(s, Arrive(conn, chunk))
    ensures LinkInv(codec, Apply(codec, s, Arrive(conn, chunk)), id)
  {
    var link := s.links[conn];
    var now := Read(link.arrived + chunk).delivered;
    PrefixDeliversPrefix(link.arrived, link.arrived + chunk);
    if conn == id {
      assert Delivered(link)[..link.processed] == now[..link.processed];
    }
  }

  lemma ExecuteKept<P(!new), M>(
      codec: Codec<P, M>, s: State<P, M>, step: E.Action<Work<P>>, id: ConnectionId)
    requires LinkInv(codec, s, id) && Enabled(s, Execute(step))
    ensures LinkInv(codec, Apply(codec, s, Execute(step)), id)
  {
    if step.Submit? {
      SubmitKept(codec, s.executor, step.task, id);
      assert OutcomesOn(codec, id, s.executor.accepted) + [] == OutcomesOn(codec, id, s.executor.accepted);
    }
  }

  lemma LinkKept<P(!new), M>(codec: Codec<P, M>, s: State<P, M>, a: Action<P>, id: ConnectionId)
    requires LinkInv(codec, s, id) && Enabled(s, a)
    requires forall c :: c in s.links ==> c < s.nextId
    ensures LinkInv(codec, Apply(codec, s, a), id)
  {
    match a
    case Connect =>
      assert Read([]).delivered[..0] == [];
    case Drop(_) =>
    case PeerSends(conn, payload) => FramesMonotone(s.links[conn].sent, payload);
    case Arrive(conn, chunk) => ArriveKept(codec, s, conn, chunk, id);
    case Receive(conn) => ReceiveKept(codec, s, conn, id);
    case Execute(step) => ExecuteKept(codec, s, step, id);
  }

  lemma {:induction false} InvHolds<P(!new), M>(
      codec: Codec<P, M>, ss: seq<State<P, M>>, acts: seq<Action<P>>, n: nat, id: ConnectionId)
    requires IsRun(codec, ss, acts) && n < |ss|
    ensures Inv(codec, ss[n], id)
    ensures forall c :: c in ss[n].links ==> c < ss[n].nextId
  {
    if n > 0 {
      InvHolds(codec, ss, acts, n - 1, id);
      StepKept(codec, ss[n - 1], acts[n - 1], id);
    }
  }

  lemma StepKept<P(!new), M>(codec: Codec<P, M>, s: State<P, M>, a: Action<P>, id: ConnectionId)
    requires Inv(codec, s, id) && Enabled(s, a)
    requires forall c :: c in s.links ==> c < s.nextId
    ensures var t := Apply(codec, s, a);
      Inv(codec, t, id) && forall c :: c in t.links ==> c < t.nextId
  {
    HandledKept(codec, s, a, id);
    LinkKept(codec, s, a, id);
    LinksKept(codec, s, a);
  }

  lemma LinksKept<P(!new), M>(codec: Codec<P, M>, s: State<P, M>, a: Action<P>)
    requires Enabled(s, a)
    requires forall c :: c in s.links ==> c < s.nextId
    ensures var t := Apply(codec, s, a); forall c :: c in t.links ==> c < t.nextId
  {
  }

  // ---- The end-to-end theorems ----

  /** In every run, the messages handled for a connection are a prefix, in send order, of the messages its peer
      sent.  The other connections make no difference, nor do stops, drops and other tasks. */
  lemma HandledInSendOrder<P(!new), M>(
      codec: Codec<P, M>, ss: seq<State<P, M>>, acts: seq<Action<P>>, n: nat, id: ConnectionId)
    requires IsRun(codec, ss, acts) && n < |ss| && id in ss[n].links
    requires LengthsSurvive(ss[n].links[id].sent)
    ensures On(id, ss[n].handled) <= Messages(codec, id, ss[n].links[id].sent)
  {
    InvHolds(codec, ss, acts, n, id);
    var s := ss[n];
    var link := s.links[id];
    DeliversPrefixOfSent(link.sent, link.arrived);
    OutcomesGrow(codec, id, s.executor.consumed, s.executor.accepted);
    MessagesGrow(codec, id, Delivered(link)[..link.processed], link.sent);
  }

  /** In particular when the lengths of all payloads fit the header. */
  lemma ShortPayloadsInSendOrder<P(!new), M>(
      codec: Codec<P, M>, ss: seq<State<P, M>>, acts: seq<Action<P>>, n: nat, id: ConnectionId)
    requires IsRun(codec, ss, acts) && n < |ss| && id in ss[n].links
    requires forall p :: p in ss[n].links[id].sent ==> |p| < 0x1_0000_0000
    ensures On(id, ss[n].handled) <= Messages(codec, id, ss[n].links[id].sent)
  {
    ShortLengthsSurvive(ss[n].links[id].sent);
    HandledInSendOrder(codec, ss, acts, n, id);
  }

  /** A connection that does not exist has no messages. */
  lemma NothingFromNowhere<P(!new), M>(
      codec: Codec<P, M>, ss: seq<State<P, M>>, acts: seq<Action<P>>, n: nat, id: ConnectionId)
    requires IsRun(codec, ss, acts) && n < |ss| && id !in ss[n].links
    ensures On(id, ss[n].handled) == []
  {
    InvHolds(codec, ss, acts, n, id);
    OutcomesGrow(codec, id, ss[n].executor.consumed, ss[n].executor.accepted);
  }

  /** When the executor was not stopped and nothing is under way, nothing has been dropped: every message that was
      sent, in frames within the bound, has been handled. */
  lemma NothingLost<P(!new), M>(
      codec: Codec<P, M>, ss: seq<State<P, M>>, acts: seq<Action<P>>, n: nat, id: ConnectionId)
    requires IsRun(codec, ss, acts) && n < |ss| && id in ss[n].links
    requires forall p :: p in ss[n].links[id].sent ==> |p| <= MAX_MESSAGE_BYTES
    requires var link := ss[n].links[id]; link.arrived == Frames(link.sent) && link.processed == |Delivered(link)|
    requires ss[n].executor.running && E.Pending(ss[n].executor) == [] && ss[n].executor.queue == []
    ensures On(id, ss[n].handled) == Messages(codec, id, ss[n].links[id].sent)
  {
    InvHolds(codec, ss, acts, n, id);
    var s := ss[n];
    var link := s.links[id];
    RoundTrip(link.sent);
    assert s.executor.consumed + [] + [] == s.executor.consumed;
    assert Delivered(link)[..link.processed] == link.sent;
  }
}
