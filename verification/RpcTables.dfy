/**
 The tables of the RPC system and of its timeout handler, as a transition system: any number of threads call, any
 number of messages and timeouts are handled, and every locked region is one step.  The scheduler appears only
 through the task ids it hands out and the closures it runs.
 */
module RpcTables {
  import opened Wrappers

  type RequestId = nat
  type ConnectionId = nat
  type MessageType = nat
  type TaskId = nat
  /** One execution of `RpcSystem::Call`. */
  type CallId = nat
  /** One execution of `RpcSystem::HandleCallback`. */
  type HandlerId = nat

  datatype Kind = Success | Error | Timeout

  /** The arguments of a call; the flags say which of the three callbacks are set. */
  datatype Spec = Spec(
    request: RequestId,
    conn: ConnectionId,
    response: MessageType,
    error: MessageType,
    onSuccess: bool,
    onError: bool,
    onTimeout: bool,
    timeout: Option<int>)

  /** The callbacks on the scheduler: the closure `Call` passes to `ScheduleTimeout`, or somebody else's. */
  datatype Closure = RpcTimeout(request: RequestId, call: CallId, callback: bool) | Foreign(code: nat)

  /** Each message type has a signal of its own, and each signal type its own id counter. */
  datatype SlotId = SlotId(message: MessageType, number: nat)

  /** The closure in a slot, by what it captures.  `call` is history: the call that subscribed it. */
  datatype Slot = Slot(request: RequestId, conn: ConnectionId, kind: Kind, callback: bool, call: CallId)

  /** An entry of `calls_`: the two handles.  `call` is history: the call that made the entry. */
  datatype PendingCall = PendingCall(success: SlotId, error: SlotId, call: CallId)

  /** How far a call has come: what it has subscribed, then the timeout, then the sending. */
  datatype Stage =
    | Starting
    | Half(success: SlotId)
    | Full(success: SlotId, error: SlotId)
    | Arming
    | Storing(task: TaskId)
    | Recording(task: TaskId)
    | Sending

  /** How far a handler has come; past the claim it has the entry made by `call`. */
  datatype At =
    | Claiming
    | Cancelling(call: CallId)
    | Unscheduling(call: CallId, task: TaskId)
    | Invoking(call: CallId)

  /** `source` is history: the call whose slot or timeout closure started the handler. */
  datatype Handler = Handler(request: RequestId, kind: Kind, callback: bool, onScheduler: bool, at: At, source: CallId)

  /** A completed call: `ran` says whether there was a callback to run. */
  datatype Completion = Completion(request: RequestId, call: CallId, kind: Kind, ran: bool)

  /** Where the entry of a call is. */
  datatype Place = Before | Entered | Rejected | Held(handler: HandlerId) | Done(index: nat)

  /** The last seven fields are history: the arguments of every call, where its entry is, the task it has scheduled
      and back, the calls that have recorded their task, those overtaken by their own `CancelTimeout`, and the
      completions. */
  datatype State = State(
    nextRequest: RequestId,
    counters: map<MessageType, nat>,
    slots: map<SlotId, Slot>,
    calls: map<RequestId, PendingCall>,
    timeouts: map<RequestId, TaskId>,
    callers: map<CallId, Stage>,
    handlers: map<HandlerId, Handler>,
    specs: map<CallId, Spec>,
    place: map<CallId, Place>,
    armed: map<CallId, TaskId>,
    owner: map<TaskId, CallId>,
    recorded: set<CallId>,
    overtaken: set<CallId>,
    trace: seq<Completion>)

  /** `Insert` and `Reject` are the two outcomes of `try_emplace`, `Claim` and `Miss` of the claim, `Cancel` and
      `CancelNothing` of the locked half of `CancelTimeout`.  `Arm` is the start of `ScheduleTimeout`, which draws the
      task id; `Store` puts the task into the scheduler and `Record` into the timeout table.  `Deliver` and `RunItem`
      start a handler: a slot reached by the emission of a message for its connection and request, and a closure run
      by the scheduler. */
  datatype Action =
    | Prepare
    | Call(call: CallId, spec: Spec)
    | SubscribeSuccess(call: CallId)
    | SubscribeError(call: CallId)
    | Insert(call: CallId)
    | Reject(call: CallId)
    | Arm(call: CallId, task: TaskId)
    | Store(call: CallId)
    | Record(call: CallId)
    | Send(call: CallId)
    | Deliver(handler: HandlerId, slot: SlotId)
    | RunItem(handler: HandlerId, closure: Closure)
    | Claim(handler: HandlerId)
    | Miss(handler: HandlerId)
    | Cancel(handler: HandlerId)
    | CancelNothing(handler: HandlerId)
    | Unschedule(handler: HandlerId)
    | Invoke(handler: HandlerId)

  // ---- The pieces of a step ----

  function NextNumber(counters: map<MessageType, nat>, message: MessageType): nat {
    if message in counters then counters[message] else 0
  }

  /** Whether the callback of this kind is set. */
  function CallbackOf(spec: Spec, kind: Kind): bool {
    match kind
    case Success => spec.onSuccess
    case Error => spec.onError
    case Timeout => spec.onTimeout
  }

  function SlotOf(spec: Spec, call: CallId, kind: Kind): Slot {
    Slot(spec.request, spec.conn, kind, CallbackOf(spec, kind), call)
  }

  function MessageOf(spec: Spec, kind: Kind): MessageType {
    if kind == Success then spec.response else spec.error
  }

  function NewSlotId(s: State, message: MessageType): SlotId {
    SlotId(message, NextNumber(s.counters, message))
  }

  function Subscribe(s: State, message: MessageType, slot: Slot): State {
    var id := NewSlotId(s, message);
    s.(counters := s.counters[message := id.number + 1], slots := s.slots[id := slot])
  }

  /** The slots when the handles of both have been destroyed. */
  function Freed(slots: map<SlotId, Slot>, success: SlotId, error: SlotId): map<SlotId, Slot> {
    map x | x in slots && x != success && x != error :: slots[x]
  }

  function ClosureOf(spec: Spec, call: CallId): Closure {
    RpcTimeout(spec.request, call, CallbackOf(spec, Timeout))
  }

  function CompletionBy(handler: Handler): Completion
    requires handler.at.Invoking?
  {
    Completion(handler.request, handler.at.call, handler.kind, handler.callback)
  }

  predicate PastClaim(h: Handler) {
    !h.at.Claiming?
  }

  predicate NotOnScheduler(s: State) {
    forall h :: h in s.handlers ==> !s.handlers[h].onScheduler
  }

  /** The call has made its entry but not yet recorded its timeout. */
  predicate BeforeRecord(s: State, call: CallId) {
    call in s.callers && (s.callers[call].Arming? || s.callers[call].Storing? || s.callers[call].Recording?)
  }

  predicate Enabled(s: State, a: Action) {
    match a
    case Prepare => true
    case Call(c, spec) => c !in s.specs && spec.request < s.nextRequest
    case SubscribeSuccess(c) => c in s.callers && c in s.specs && s.callers[c].Starting?
    case SubscribeError(c) => c in s.callers && c in s.specs && s.callers[c].Half?
    case Insert(c) => c in s.callers && c in s.specs && s.callers[c].Full? && s.specs[c].request !in s.calls
    case Reject(c) => c in s.callers && c in s.specs && s.callers[c].Full? && s.specs[c].request in s.calls
    case Arm(c, task) => c in s.callers && s.callers[c].Arming? && task !in s.owner
    case Store(c) => c in s.callers && s.callers[c].Storing?
    case Record(c) => c in s.callers && c in s.specs && s.callers[c].Recording?
    case Send(c) => c in s.callers && s.callers[c].Sending?
    case Deliver(h, x) => h !in s.handlers && x in s.slots
    case RunItem(h, closure) => h !in s.handlers && NotOnScheduler(s) && closure.RpcTimeout?
    case Claim(h) => h in s.handlers && s.handlers[h].at.Claiming? && s.handlers[h].request in s.calls
    case Miss(h) => h in s.handlers && s.handlers[h].at.Claiming? && s.handlers[h].request !in s.calls
    case Cancel(h) => h in s.handlers && s.handlers[h].at.Cancelling? && s.handlers[h].request in s.timeouts
    case CancelNothing(h) => h in s.handlers && s.handlers[h].at.Cancelling? && s.handlers[h].request !in s.timeouts
    case Unschedule(h) => h in s.handlers && s.handlers[h].at.Unscheduling?
    case Invoke(h) => h in s.handlers && s.handlers[h].at.Invoking?
  }

  /** The stage after the entry. */
  function AfterInsert(spec: Spec): Stage {
    if spec.timeout.Some? then Arming else Sending
  }

  function OvertakenBy(s: State, call: CallId): set<CallId> {
    if BeforeRecord(s, call) then {call} else {}
  }

  function Apply(s: State, a: Action): State
    requires Enabled(s, a)
  {
    match a
    case Prepare => s.(nextRequest := s.nextRequest + 1)
    case Call(c, spec) =>
      s.(specs := s.specs[c := spec], callers := s.callers[c := Starting], place := s.place[c := Before])
    case SubscribeSuccess(c) =>
      var spec := s.specs[c];
      Subscribe(s, spec.response, SlotOf(spec, c, Success)).(
        callers := s.callers[c := Half(NewSlotId(s, spec.response))])
    case SubscribeError(c) =>
      var spec := s.specs[c];
      Subscribe(s, spec.error, SlotOf(spec, c, Error)).(
        callers := s.callers[c := Full(s.callers[c].success, NewSlotId(s, spec.error))])
    case Insert(c) =>
      s.(calls := s.calls[s.specs[c].request := PendingCall(s.callers[c].success, s.callers[c].error, c)],
         callers := s.callers[c := AfterInsert(s.specs[c])], place := s.place[c := Entered])
    case Reject(c) =>
      // the id keeps its entry, and the two fresh handles are destroyed
      s.(slots := Freed(s.slots, s.callers[c].success, s.callers[c].error),
         callers := s.callers[c := AfterInsert(s.specs[c])], place := s.place[c := Rejected])
    case Arm(c, task) => s.(callers := s.callers[c := Storing(task)], armed := s.armed[c := task],
                               owner := s.owner[task := c])
    case Store(c) => s.(callers := s.callers[c := Recording(s.callers[c].task)])
    case Record(c) =>
      s.(timeouts := s.timeouts[s.specs[c].request := s.callers[c].task], callers := s.callers[c := Sending],
         recorded := s.recorded + {c})
    case Send(c) => s.(callers := s.callers - {c})
    case Deliver(h, x) =>
      var slot := s.slots[x];
      s.(handlers := s.handlers[h := Handler(slot.request, slot.kind, slot.callback, false, Claiming, slot.call)])
    case RunItem(h, closure) =>
      s.(handlers := s.handlers[h := Handler(closure.request, Timeout, closure.callback, true, Claiming, closure.call)])
    case Claim(h) =>
      // the entry goes, and with its handles both slots
      var entry := s.calls[s.handlers[h].request];
      s.(calls := s.calls - {s.handlers[h].request}, slots := Freed(s.slots, entry.success, entry.error),
         handlers := s.handlers[h := s.handlers[h].(at := Cancelling(entry.call))],
         place := s.place[entry.call := Held(h)])
    case Miss(h) => s.(handlers := s.handlers - {h})
    case Cancel(h) =>
      var request := s.handlers[h].request;
      s.(timeouts := s.timeouts - {request},
         handlers := s.handlers[h := s.handlers[h].(at := Unscheduling(s.handlers[h].at.call, s.timeouts[request]))])
    case CancelNothing(h) =>
      s.(handlers := s.handlers[h := s.handlers[h].(at := Invoking(s.handlers[h].at.call))],
         overtaken := s.overtaken + OvertakenBy(s, s.handlers[h].at.call))
    case Unschedule(h) => s.(handlers := s.handlers[h := s.handlers[h].(at := Invoking(s.handlers[h].at.call))])
    case Invoke(h) =>
      var handler := s.handlers[h];
      s.(handlers := s.handlers - {h},
         trace := s.trace + [CompletionBy(handler)],
         place := s.place[handler.at.call := Done(|s.trace|)])
  }

  const INITIAL := State(1, map[], map[], map[], map[], map[], map[], map[], map[], map[], map[], {}, {}, [])

  predicate SameCall(s: State, c: CallId, d: CallId) {
    c in s.specs && d in s.specs && s.specs[c].request == s.specs[d].request ==> c == d
  }

  /** `Call()` was invoked once per prepared request. */
  ghost predicate CalledOnce(s: State) {
    forall c, d :: SameCall(s, c, d)
  }

  /** A name for another handler. */
  lemma {:induction false} NewHandler(ids: set<HandlerId>) returns (g: HandlerId)
    ensures g !in ids && forall h :: h in ids ==> h < g
  {
    if ids == {} {
      g := 0;
    } else {
      var h :| h in ids;
      g := NewHandler(ids - {h});
      g := if h < g then g else h + 1;
      assert ids == ids - {h} + {h};
    }
  }

  // ---- At most one callback ----

  predicate NotEntered(stage: Stage) {
    stage.Starting? || stage.Half? || stage.Full?
  }

  /** The entry of `c` is pending. */
  predicate IsEntry(s: State, c: CallId) {
    c in s.specs && s.specs[c].request in s.calls && s.calls[s.specs[c].request].call == c
  }

  predicate StageOk(s: State, c: CallId) {
    && (c in s.place <==> c in s.specs)
    && (c in s.callers ==> c in s.specs)
    && (c in s.place ==> (s.place[c] == Before <==> c in s.callers && NotEntered(s.callers[c])))
  }

  predicate EnteredOk(s: State, c: CallId) {
    c in s.place && s.place[c] == Entered <==> IsEntry(s, c)
  }

  predicate EntryOk(s: State, r: RequestId) {
    r in s.calls ==> s.calls[r].call in s.specs && s.specs[s.calls[r].call].request == r
  }

  predicate HolderOk(s: State, h: HandlerId) {
    h in s.handlers && PastClaim(s.handlers[h]) ==>
      var c := s.handlers[h].at.call;
      c in s.specs && c in s.place && s.specs[c].request == s.handlers[h].request && s.place[c] == Held(h)
  }

  predicate HeldOk(s: State, c: CallId) {
    c in s.place && s.place[c].Held? ==>
      var h := s.place[c].handler; h in s.handlers && PastClaim(s.handlers[h]) && s.handlers[h].at.call == c
  }

  predicate DoneOk(s: State, i: nat) {
    i < |s.trace| ==>
      var c := s.trace[i].call;
      c in s.specs && c in s.place && s.specs[c].request == s.trace[i].request && s.place[c] == Done(i)
  }

  /** Every call's entry is in one place: not made yet, pending, rejected, held by one handler, or completed once. */
  ghost predicate PlaceInv(s: State) {
    && (forall c :: StageOk(s, c))
    && (forall c :: EnteredOk(s, c))
    && (forall r :: EntryOk(s, r))
    && (forall h :: HolderOk(s, h))
    && (forall c :: HeldOk(s, c))
    && (forall i :: DoneOk(s, i))
  }

  // The proofs of preservation go step by step; to keep each one small the steps come in three groups.

  /** The steps that subscribe. */
  predicate Subscribes(a: Action) {
    a.Call? || a.SubscribeSuccess? || a.SubscribeError?
  }

  /** The steps that make or remove an entry. */
  predicate Enters(a: Action) {
    a.Insert? || a.Reject? || a.Claim?
  }

  /** The instances of the invariant that a step is about. */
  ghost predicate AboutPlace(s: State, a: Action)
    requires Enabled(s, a)
  {
    match a
    case Call(c, spec) => StageOk(s, c) && EntryOk(s, spec.request)
    case Insert(c) => StageOk(s, c) && EnteredOk(s, c)
    case Reject(c) => StageOk(s, c) && EnteredOk(s, c)
    case Claim(h) =>
      EntryOk(s, s.handlers[h].request) &&
      var c := s.calls[s.handlers[h].request].call; StageOk(s, c) && EnteredOk(s, c)
    case Cancel(h) => HolderOk(s, h)
    case CancelNothing(h) => HolderOk(s, h)
    case Unschedule(h) => HolderOk(s, h)
    case Invoke(h) => HolderOk(s, h)
    case _ => true
  }

  lemma StageKeptEntering(s: State, a: Action, c: CallId)
    requires Enabled(s, a) && AboutPlace(s, a) && StageOk(s, c) && (Subscribes(a) || Enters(a))
    ensures StageOk(Apply(s, a), c)
  {
  }

  lemma StageKeptOtherwise(s: State, a: Action, c: CallId)
    requires Enabled(s, a) && AboutPlace(s, a) && StageOk(s, c) && !Subscribes(a) && !Enters(a)
    ensures StageOk(Apply(s, a), c)
  {
  }

  lemma EnteredKeptEntering(s: State, a: Action, c: CallId)
    requires Enabled(s, a) && AboutPlace(s, a) && EnteredOk(s, c) && (Subscribes(a) || Enters(a))
    ensures EnteredOk(Apply(s, a), c)
  {
  }

  lemma EnteredKeptOtherwise(s: State, a: Action, c: CallId)
    requires Enabled(s, a) && AboutPlace(s, a) && EnteredOk(s, c) && !Subscribes(a) && !Enters(a)
    ensures EnteredOk(Apply(s, a), c)
  {
  }

  lemma EntryKept(s: State, a: Action, r: RequestId)
    requires Enabled(s, a) && AboutPlace(s, a) && EntryOk(s, r)
    ensures EntryOk(Apply(s, a), r)
  {
  }

  lemma HolderKeptEntering(s: State, a: Action, h: HandlerId)
    requires Enabled(s, a) && AboutPlace(s, a) && HolderOk(s, h) && (Subscribes(a) || Enters(a))
    ensures HolderOk(Apply(s, a), h)
  {
  }

  lemma HolderKeptOtherwise(s: State, a: Action, h: HandlerId)
    requires Enabled(s, a) && AboutPlace(s, a) && HolderOk(s, h) && !Subscribes(a) && !Enters(a)
    ensures HolderOk(Apply(s, a), h)
  {
  }

  lemma HeldKeptEntering(s: State, a: Action, c: CallId)
    requires Enabled(s, a) && AboutPlace(s, a) && HeldOk(s, c) && (Subscribes(a) || Enters(a))
    ensures HeldOk(Apply(s, a), c)
  {
  }

  lemma HeldKeptOtherwise(s: State, a: Action, c: CallId)
    requires Enabled(s, a) && AboutPlace(s, a) && HeldOk(s, c) && !Subscribes(a) && !Enters(a)
    ensures HeldOk(Apply(s, a), c)
  {
  }

  lemma DoneKept(s: State, a: Action, i: nat)
    requires Enabled(s, a) && AboutPlace(s, a) && DoneOk(s, i)
    ensures DoneOk(Apply(s, a), i)
  {
  }

  lemma CallPlaceKept(s: State, a: Action, c: CallId)
    requires Enabled(s, a) && AboutPlace(s, a) && StageOk(s, c) && EnteredOk(s, c) && HeldOk(s, c)
    ensures var t := Apply(s, a); StageOk(t, c) && EnteredOk(t, c) && HeldOk(t, c)
  {
    if Subscribes(a) || Enters(a) {
      StageKeptEntering(s, a, c);
      EnteredKeptEntering(s, a, c);
      HeldKeptEntering(s, a, c);
    } else {
      StageKeptOtherwise(s, a, c);
      EnteredKeptOtherwise(s, a, c);
      HeldKeptOtherwise(s, a, c);
    }
  }

  lemma PlaceInvKept(s: State, a: Action)
    requires PlaceInv(s) && Enabled(s, a)
    ensures PlaceInv(Apply(s, a))
  {
    assert AboutPlace(s, a);
    var t := Apply(s, a);
    forall c ensures StageOk(t, c) && EnteredOk(t, c) && HeldOk(t, c) { CallPlaceKept(s, a, c); }
    forall r ensures EntryOk(t, r) { EntryKept(s, a, r); }
    forall h ensures HolderOk(t, h) {
      if Subscribes(a) || Enters(a) {
        HolderKeptEntering(s, a, h);
      } else {
        HolderKeptOtherwise(s, a, h);
      }
    }
    forall i ensures DoneOk(t, i) { DoneKept(s, a, i); }
  }

  // ---- Slots and handles ----

  /** The slots a call holds through handles. */
  datatype Holding = Nothing | One(success: SlotId) | Both(success: SlotId, error: SlotId)
  {
    predicate Has(kind: Kind, x: SlotId) {
      match kind
      case Success => !Nothing? && success == x
      case Error => Both? && error == x
      case Timeout => false
    }
  }

  /** What `c` holds: while it subscribes, in the thread of the call, and then in its entry. */
  function Holdings(s: State, c: CallId): Holding {
    if c in s.callers && s.callers[c].Half? then One(s.callers[c].success)
    else if c in s.callers && s.callers[c].Full? then Both(s.callers[c].success, s.callers[c].error)
    else if IsEntry(s, c) then Both(s.calls[s.specs[c].request].success, s.calls[s.specs[c].request].error)
    else Nothing
  }

  predicate SlotOk(s: State, x: SlotId) {
    x in s.slots ==>
      var slot := s.slots[x];
      && x.number < NextNumber(s.counters, x.message)
      && slot.call in s.specs && slot.kind != Timeout
      && slot == SlotOf(s.specs[slot.call], slot.call, slot.kind)
      && x.message == MessageOf(s.specs[slot.call], slot.kind)
      && Holdings(s, slot.call).Has(slot.kind, x)
  }

  predicate IsSlotOf(s: State, c: CallId, kind: Kind, x: SlotId) {
    x in s.slots && s.slots[x].call == c && s.slots[x].kind == kind && x.number < NextNumber(s.counters, x.message)
  }

  predicate HandleOk(s: State, c: CallId) {
    match Holdings(s, c)
    case Nothing => true
    case One(x) => IsSlotOf(s, c, Success, x)
    case Both(x, y) => IsSlotOf(s, c, Success, x) && IsSlotOf(s, c, Error, y)
  }

  /** Every slot is held through exactly one handle, and every handle still has its slot. */
  ghost predicate SlotInv(s: State) {
    && (forall x :: SlotOk(s, x))
    && (forall c :: HandleOk(s, c))
  }

  ghost predicate AboutCall(s: State, c: CallId) {
    StageOk(s, c) && EnteredOk(s, c) && HandleOk(s, c)
  }

  ghost predicate AboutSlots(s: State, a: Action)
    requires Enabled(s, a)
  {
    match a
    case Call(c, spec) => EntryOk(s, spec.request)
    case SubscribeSuccess(c) => AboutCall(s, c)
    case SubscribeError(c) => AboutCall(s, c)
    case Insert(c) => AboutCall(s, c)
    case Reject(c) => AboutCall(s, c)
    case Arm(c, _) => AboutCall(s, c)
    case Claim(h) =>
      EntryOk(s, s.handlers[h].request) && AboutCall(s, s.calls[s.handlers[h].request].call)
    case _ => true
  }

  lemma HoldingsKept(s: State, a: Action, c: CallId)
    requires Enabled(s, a) && AboutSlots(s, a) && !Subscribes(a) && !Enters(a)
    ensures Holdings(Apply(s, a), c) == Holdings(s, c)
  {
  }

  /** The steps that change a table or a history field. */
  lemma FieldsChange(s: State, a: Action)
    requires Enabled(s, a)
    ensures var t := Apply(s, a);
      && (!a.Call? ==> t.specs == s.specs)
      && (!Subscribes(a) && !Enters(a) ==> t.slots == s.slots && t.counters == s.counters)
      && (!a.Arm? ==> t.armed == s.armed && t.owner == s.owner)
      && t.recorded == s.recorded + (if a.Record? then {a.call} else {})
      && t.overtaken == s.overtaken + (if Overtakes(s, a) then {s.handlers[a.handler].at.call} else {})
      && t.trace == s.trace + (if a.Invoke? then [CompletionBy(s.handlers[a.handler])] else [])
      && t.nextRequest == s.nextRequest + (if a.Prepare? then 1 else 0)
  {
  }

  lemma SlotKeptSubscribing(s: State, a: Action, x: SlotId)
    requires Enabled(s, a) && AboutSlots(s, a) && SlotOk(s, x) && Subscribes(a)
    ensures SlotOk(Apply(s, a), x)
  {
  }

  lemma SlotKeptEntering(s: State, a: Action, x: SlotId)
    requires Enabled(s, a) && AboutSlots(s, a) && SlotOk(s, x) && Enters(a)
    ensures SlotOk(Apply(s, a), x)
  {
  }

  lemma SlotKeptOtherwise(s: State, a: Action, x: SlotId)
    requires Enabled(s, a) && AboutSlots(s, a) && SlotOk(s, x) && !Subscribes(a) && !Enters(a)
    ensures SlotOk(Apply(s, a), x)
  {
    FieldsChange(s, a);
    if x in s.slots {
      HoldingsKept(s, a, s.slots[x].call);
    }
  }

  lemma SlotKept(s: State, a: Action, x: SlotId)
    requires Enabled(s, a) && AboutSlots(s, a) && SlotOk(s, x)
    ensures SlotOk(Apply(s, a), x)
  {
    if Subscribes(a) {
      SlotKeptSubscribing(s, a, x);
    } else if Enters(a) {
      SlotKeptEntering(s, a, x);
    } else {
      SlotKeptOtherwise(s, a, x);
    }
  }

  lemma HandleKeptCall(s: State, a: Action, c: CallId)
    requires Enabled(s, a) && AboutSlots(s, a) && HandleOk(s, c) && a.Call?
    ensures HandleOk(Apply(s, a), c)
  {
  }

  lemma HandleKeptSubscribeSuccess(s: State, a: Action, c: CallId)
    requires Enabled(s, a) && AboutSlots(s, a) && HandleOk(s, c) && a.SubscribeSuccess?
    ensures HandleOk(Apply(s, a), c)
  {
  }

  lemma HandleKeptSubscribeError(s: State, a: Action, c: CallId)
    requires Enabled(s, a) && AboutSlots(s, a) && HandleOk(s, c) && a.SubscribeError?
    ensures HandleOk(Apply(s, a), c)
  {
  }

  lemma HandleKeptEntering(s: State, a: Action, c: CallId)
    requires Enabled(s, a) && AboutSlots(s, a) && HandleOk(s, c) && (a.Insert? || a.Reject?)
    ensures HandleOk(Apply(s, a), c)
  {
  }

  lemma HandleKeptClaiming(s: State, a: Action, c: CallId)
    requires Enabled(s, a) && AboutSlots(s, a) && HandleOk(s, c) && a.Claim?
    ensures HandleOk(Apply(s, a), c)
  {
  }

  lemma HandleKept(s: State, a: Action, c: CallId)
    requires Enabled(s, a) && AboutSlots(s, a) && HandleOk(s, c)
    ensures HandleOk(Apply(s, a), c)
  {
    if a.Call? {
      HandleKeptCall(s, a, c);
    } else if a.SubscribeSuccess? {
      HandleKeptSubscribeSuccess(s, a, c);
    } else if a.SubscribeError? {
      HandleKeptSubscribeError(s, a, c);
    } else if a.Claim? {
      HandleKeptClaiming(s, a, c);
    } else if Enters(a) {
      HandleKeptEntering(s, a, c);
    } else {
      HoldingsKept(s, a, c);
      FieldsChange(s, a);
    }
  }

  lemma SlotInvKept(s: State, a: Action)
    requires PlaceInv(s) && SlotInv(s) && Enabled(s, a)
    ensures SlotInv(Apply(s, a))
  {
    assert AboutSlots(s, a);
    forall x ensures SlotOk(Apply(s, a), x) { SlotKept(s, a, x); }
    forall c ensures HandleOk(Apply(s, a), c) { HandleKept(s, a, c); }
  }

  // ---- The timeout table ----

  /** What a call has armed and recorded. */
  predicate ArmOk(s: State, c: CallId) {
    && (c in s.armed ==>
          c in s.specs && IsArmedWith(s, c) && (c in s.recorded || (BeforeRecord(s, c) && !s.callers[c].Arming?)))
    && (c in s.recorded ==> c in s.armed && !BeforeRecord(s, c))
    && (c in s.callers && (s.callers[c].Storing? || s.callers[c].Recording?) ==>
          c in s.armed && s.armed[c] == s.callers[c].task)
    && (c in s.callers && (NotEntered(s.callers[c]) || s.callers[c].Arming?) ==> c !in s.armed)
  }

  predicate IsArmedWith(s: State, c: CallId)
    requires c in s.armed
  {
    s.armed[c] in s.owner && s.owner[s.armed[c]] == c
  }

  /** A call that has made its entry arms a timeout exactly if it was given one. */
  predicate TimeoutOk(s: State, c: CallId) {
    c in s.specs && c in s.place && s.place[c] != Before ==>
      (s.specs[c].timeout.Some? <==> BeforeRecord(s, c) || c in s.recorded)
  }

  predicate TableOk(s: State, r: RequestId) {
    r in s.timeouts ==>
      && s.timeouts[r] in s.owner
      && var c := s.owner[s.timeouts[r]];
      c in s.recorded && c in s.specs && s.specs[c].request == r && c in s.armed && s.armed[c] == s.timeouts[r]
  }

  /** A handler unschedules the task of a call for its own request. */
  predicate UnscheduleOk(s: State, h: HandlerId) {
    h in s.handlers && s.handlers[h].at.Unscheduling? ==>
      && s.handlers[h].at.task in s.owner
      && var c := s.owner[s.handlers[h].at.task];
      && c in s.specs && s.specs[c].request == s.handlers[h].request
      && c in s.recorded && c in s.armed && s.armed[c] == s.handlers[h].at.task
  }

  ghost predicate TimeoutInv(s: State) {
    && (forall h :: UnscheduleOk(s, h))
    && (forall c :: ArmOk(s, c))
    && (forall c :: TimeoutOk(s, c))
    && (forall r :: TableOk(s, r))
  }

  /** The steps of a call that is past its entry. */
  predicate Arms(a: Action) {
    a.Arm? || a.Store? || a.Record? || a.Send?
  }

  ghost predicate AboutArm(s: State, c: CallId) {
    ArmOk(s, c) && StageOk(s, c) && EnteredOk(s, c)
  }

  ghost predicate AboutTimeouts(s: State, a: Action)
    requires Enabled(s, a)
  {
    match a
    case Call(c, _) => AboutArm(s, c)
    case SubscribeSuccess(c) => AboutArm(s, c)
    case SubscribeError(c) => AboutArm(s, c)
    case Insert(c) => AboutArm(s, c)
    case Reject(c) => AboutArm(s, c)
    case Arm(c, _) => AboutArm(s, c)
    case Store(c) => AboutArm(s, c)
    case Record(c) => AboutArm(s, c)
    case Send(c) => AboutArm(s, c)
    case Claim(h) =>
      EntryOk(s, s.handlers[h].request) && EnteredOk(s, s.calls[s.handlers[h].request].call)
    case Invoke(h) => HolderOk(s, h)
    case _ => true
  }

  lemma ArmKeptSubscribing(s: State, a: Action, c: CallId)
    requires Enabled(s, a) && AboutTimeouts(s, a) && ArmOk(s, c) && (Subscribes(a) || Enters(a))
    ensures ArmOk(Apply(s, a), c)
  {
  }

  lemma ArmKeptArming(s: State, a: Action, c: CallId)
    requires Enabled(s, a) && AboutTimeouts(s, a) && ArmOk(s, c) && Arms(a)
    ensures ArmOk(Apply(s, a), c)
  {
  }

  lemma ArmKeptOtherwise(s: State, a: Action, c: CallId)
    requires Enabled(s, a) && AboutTimeouts(s, a) && ArmOk(s, c) && !Subscribes(a) && !Enters(a) && !Arms(a)
    ensures ArmOk(Apply(s, a), c)
  {
  }

  lemma TimeoutKeptSubscribing(s: State, a: Action, c: CallId)
    requires Enabled(s, a) && AboutTimeouts(s, a) && TimeoutOk(s, c) && (Subscribes(a) || Enters(a))
    ensures TimeoutOk(Apply(s, a), c)
  {
  }

  lemma TimeoutKeptArming(s: State, a: Action, c: CallId)
    requires Enabled(s, a) && AboutTimeouts(s, a) && TimeoutOk(s, c) && Arms(a)
    ensures TimeoutOk(Apply(s, a), c)
  {
  }

  lemma TimeoutKeptOtherwise(s: State, a: Action, c: CallId)
    requires Enabled(s, a) && AboutTimeouts(s, a) && TimeoutOk(s, c) && !Subscribes(a) && !Enters(a) && !Arms(a)
    ensures TimeoutOk(Apply(s, a), c)
  {
  }

  lemma TableKeptCalling(s: State, a: Action, r: RequestId)
    requires Enabled(s, a) && AboutTimeouts(s, a) && TableOk(s, r) && (Subscribes(a) || Enters(a) || Arms(a))
    ensures TableOk(Apply(s, a), r)
  {
  }

  lemma TableKeptOtherwise(s: State, a: Action, r: RequestId)
    requires Enabled(s, a) && TableOk(s, r) && !Subscribes(a) && !Enters(a) && !Arms(a)
    ensures TableOk(Apply(s, a), r)
  {
  }

  lemma UnscheduleKeptCalling(s: State, a: Action, h: HandlerId)
    requires Enabled(s, a) && AboutTimeouts(s, a) && UnscheduleOk(s, h) && (Subscribes(a) || Enters(a) || Arms(a))
    ensures UnscheduleOk(Apply(s, a), h)
  {
  }

  lemma UnscheduleKeptOtherwise(s: State, a: Action, h: HandlerId)
    requires Enabled(s, a) && UnscheduleOk(s, h) && !Subscribes(a) && !Enters(a) && !Arms(a)
    requires a.Cancel? ==> TableOk(s, s.handlers[a.handler].request)
    ensures UnscheduleOk(Apply(s, a), h)
  {
  }

  lemma TimeoutInvKept(s: State, a: Action)
    requires PlaceInv(s) && TimeoutInv(s) && Enabled(s, a)
    ensures TimeoutInv(Apply(s, a))
  {
    assert AboutTimeouts(s, a);
    var t := Apply(s, a);
    forall c ensures ArmOk(t, c) && TimeoutOk(t, c) {
      assert ArmOk(s, c) && TimeoutOk(s, c);
      if Subscribes(a) || Enters(a) {
        ArmKeptSubscribing(s, a, c);
        TimeoutKeptSubscribing(s, a, c);
      } else if Arms(a) {
        ArmKeptArming(s, a, c);
        TimeoutKeptArming(s, a, c);
      } else {
        ArmKeptOtherwise(s, a, c);
        TimeoutKeptOtherwise(s, a, c);
      }
    }
    forall r ensures TableOk(t, r) {
      assert TableOk(s, r);
      if Subscribes(a) || Enters(a) || Arms(a) {
        TableKeptCalling(s, a, r);
      } else {
        TableKeptOtherwise(s, a, r);
      }
    }
    forall h ensures UnscheduleOk(t, h) {
      assert UnscheduleOk(s, h);
      assert a.Cancel? ==> TableOk(s, s.handlers[a.handler].request);
      if Subscribes(a) || Enters(a) || Arms(a) {
        UnscheduleKeptCalling(s, a, h);
      } else {
        UnscheduleKeptOtherwise(s, a, h);
      }
    }
  }

  // ---- Agreement of the timeout table with the pending calls ----

  /** No handler has yet run the locked half of `CancelTimeout` for the call. */
  predicate NotCancelled(s: State, c: CallId) {
    c in s.place &&
    match s.place[c]
    case Before => true
    case Entered => true
    case Held(h) => h in s.handlers && s.handlers[h].at.Cancelling?
    case _ => false
  }

  predicate OvertakenOk(s: State, c: CallId) {
    && (c in s.overtaken ==> c in s.specs && !NotCancelled(s, c) && (BeforeRecord(s, c) || c in s.recorded))
    && (BeforeRecord(s, c) && !NotCancelled(s, c) ==> c in s.overtaken)
  }

  /** A recorded timeout is in the table until it is cancelled, or for ever if it was cancelled before. */
  predicate AgreeOk(s: State, c: CallId) {
    c in s.recorded && c in s.specs && c in s.armed ==>
      (s.specs[c].request in s.timeouts && s.timeouts[s.specs[c].request] == s.armed[c] <==>
        NotCancelled(s, c) || c in s.overtaken)
  }

  ghost predicate AgreeInv(s: State) {
    && (forall c :: OvertakenOk(s, c))
    && (forall c :: AgreeOk(s, c))
  }

  /** The call a step of the timeout protocol is about. */
  function Subject(s: State, a: Action): CallId
    requires Enabled(s, a)
  {
    match a
    case Call(c, _) => c
    case Record(c) => c
    case Claim(h) => s.calls[s.handlers[h].request].call
    case Cancel(h) => s.handlers[h].at.call
    case CancelNothing(h) => s.handlers[h].at.call
    case Unschedule(h) => s.handlers[h].at.call
    case Invoke(h) => s.handlers[h].at.call
    case _ => 0
  }

  ghost predicate AboutAgree(s: State, a: Action)
    requires Enabled(s, a)
  {
    && !a.Reject?
    && var c := Subject(s, a);
    match a
    case Call(_, _) => StageOk(s, c) && ArmOk(s, c)
    case Arm(d, _) => ArmOk(s, d)
    case Record(_) => StageOk(s, c) && ArmOk(s, c) && OvertakenOk(s, c)
    case Claim(h) => EntryOk(s, s.handlers[h].request) && EnteredOk(s, c)
    case Cancel(h) =>
      && HolderOk(s, h) && OvertakenOk(s, c) && ArmOk(s, c) && TableOk(s, s.handlers[h].request)
      && SameCall(s, c, s.owner[s.timeouts[s.handlers[h].request]])
    case CancelNothing(h) => HolderOk(s, h) && AgreeOk(s, c) && OvertakenOk(s, c) && ArmOk(s, c) && TimeoutOk(s, c)
    case Unschedule(h) => HolderOk(s, h)
    case Invoke(h) => HolderOk(s, h)
    case _ => true
  }

  /** Under `CalledOnce`, `try_emplace` never finds the id pending. */
  lemma NeverRejected(s: State, c: CallId)
    requires PlaceInv(s) && CalledOnce(s)
    ensures !Enabled(s, Reject(c))
  {
    assert EnteredOk(s, c) && StageOk(s, c);
    if c in s.specs && s.specs[c].request in s.calls {
      assert EntryOk(s, s.specs[c].request) && SameCall(s, c, s.calls[s.specs[c].request].call);
    }
  }

  lemma TableBelongsToCall(s: State, a: Action)
    requires PlaceInv(s) && TimeoutInv(s) && AgreeInv(s) && CalledOnce(s) && Enabled(s, a)
    ensures AboutAgree(s, a)
  {
    if a.Reject? {
      NeverRejected(s, a.call);
    } else if a.Cancel? {
      assert TableOk(s, s.handlers[a.handler].request);
    }
  }

  /** What a step leaves of a call that has been recorded and of one that has not. */
  lemma OvertakenKeptEntering(s: State, a: Action, c: CallId)
    requires Enabled(s, a) && AboutAgree(s, a) && OvertakenOk(s, c) && StageOk(s, c) && HeldOk(s, c)
    requires Subscribes(a) || Enters(a) || Arms(a)
    ensures OvertakenOk(Apply(s, a), c)
  {
  }

  lemma OvertakenKeptOtherwise(s: State, a: Action, c: CallId)
    requires Enabled(s, a) && AboutAgree(s, a) && OvertakenOk(s, c) && StageOk(s, c) && HeldOk(s, c)
    requires !Subscribes(a) && !Enters(a) && !Arms(a)
    ensures OvertakenOk(Apply(s, a), c)
  {
  }

  lemma AgreeKeptEntering(s: State, a: Action, c: CallId)
    requires Enabled(s, a) && AboutAgree(s, a) && AgreeOk(s, c) && StageOk(s, c) && HeldOk(s, c)
    requires SameCall(s, Subject(s, a), c)
    requires Subscribes(a) || Enters(a) || Arms(a)
    ensures AgreeOk(Apply(s, a), c)
  {
  }

  lemma AgreeKeptOtherwise(s: State, a: Action, c: CallId)
    requires Enabled(s, a) && AboutAgree(s, a) && AgreeOk(s, c) && StageOk(s, c) && HeldOk(s, c)
    requires SameCall(s, Subject(s, a), c)
    requires !Subscribes(a) && !Enters(a) && !Arms(a)
    ensures AgreeOk(Apply(s, a), c)
  {
  }

  lemma AgreeInvKept(s: State, a: Action)
    requires PlaceInv(s) && TimeoutInv(s) && AgreeInv(s) && CalledOnce(s) && Enabled(s, a)
    ensures AgreeInv(Apply(s, a))
  {
    TableBelongsToCall(s, a);
    forall c ensures OvertakenOk(Apply(s, a), c) && AgreeOk(Apply(s, a), c) {
      assert OvertakenOk(s, c) && AgreeOk(s, c) && StageOk(s, c) && HeldOk(s, c) && SameCall(s, Subject(s, a), c);
      if Subscribes(a) || Enters(a) || Arms(a) {
        OvertakenKeptEntering(s, a, c);
        AgreeKeptEntering(s, a, c);
      } else {
        OvertakenKeptOtherwise(s, a, c);
        AgreeKeptOtherwise(s, a, c);
      }
    }
  }

  // ---- Completions ----

  /** A call whose handler has finished is in the trace. */
  predicate FinishedOk(s: State, c: CallId) {
    c in s.place && s.place[c].Done? ==> s.place[c].index < |s.trace| && s.trace[s.place[c].index].call == c
  }

  lemma FinishedKept(s: State, a: Action, c: CallId)
    requires Enabled(s, a) && FinishedOk(s, c)
    ensures FinishedOk(Apply(s, a), c)
  {
    FieldsChange(s, a);
  }

  lemma RejectedOnly(s: State, a: Action, c: CallId)
    requires Enabled(s, a) && c in Apply(s, a).place && Apply(s, a).place[c] == Rejected
    ensures a == Reject(c) || (c in s.place && s.place[c] == Rejected)
  {
  }

  /** Every call past its entry has been rejected, is held by a handler, or has completed. */
  lemma SettledExactly(s: State, c: CallId)
    requires PlaceInv(s) && FinishedOk(s, c) && IsSettled(s, c)
    ensures s.place[c] == Rejected ||
      (exists h :: h in s.handlers && PastClaim(s.handlers[h]) && s.handlers[h].at.call == c) ||
      (exists i :: 0 <= i < |s.trace| && s.trace[i].call == c)
  {
    assert HeldOk(s, c);
  }

  // ---- Frames ----

  /** What a call has armed and recorded stays. */
  lemma RecordedKept(s: State, a: Action, c: CallId)
    requires Enabled(s, a) && c in s.recorded && ArmOk(s, c)
    ensures var t := Apply(s, a); c in t.recorded && c in t.armed && t.armed[c] == s.armed[c]
  {
    FieldsChange(s, a);
  }

  ghost predicate SpecsKept(s: State, t: State) {
    forall c :: c in s.specs ==> c in t.specs && t.specs[c] == s.specs[c]
  }

  lemma CalledOnceKept(s: State, t: State)
    requires SpecsKept(s, t) && CalledOnce(t)
    ensures CalledOnce(s)
  {
    forall c, d ensures SameCall(s, c, d) {
      assert SameCall(t, c, d);
    }
  }

  lemma SpecsStay(s: State, a: Action)
    requires Enabled(s, a)
    ensures SpecsKept(s, Apply(s, a))
  {
  }

  lemma StoringKept(s: State, a: Action, c: CallId)
    requires Enabled(s, a) && !a.Arm? && !a.Store?
    requires a.Call? ==> c != a.call
    ensures c in s.callers && s.callers[c].Storing? <==> c in Apply(s, a).callers && Apply(s, a).callers[c].Storing?
  {
  }

  /** An entry is made by `Insert` alone. */
  lemma EntryMade(s: State, a: Action, c: CallId)
    requires Enabled(s, a) && AboutPlace(s, a) && !IsEntry(s, c) && IsEntry(Apply(s, a), c)
    ensures a == Insert(c)
  {
  }

  /** A handler of the scheduler thread is about to claim the request of `c`. */
  predicate ClaimsFor(s: State, h: HandlerId, c: CallId) {
    && c in s.specs && h in s.handlers && s.handlers[h].onScheduler && s.handlers[h].at.Claiming?
    && s.handlers[h].request == s.specs[c].request
  }

  /** What is past its entry stays past it. */
  predicate IsSettled(s: State, c: CallId) {
    c in s.place && s.place[c] != Before && s.place[c] != Entered
  }

  lemma SettledStaysEntering(s: State, a: Action, c: CallId)
    requires Enabled(s, a) && AboutPlace(s, a) && IsSettled(s, c) && StageOk(s, c) && (Subscribes(a) || Enters(a))
    ensures IsSettled(Apply(s, a), c)
  {
  }

  lemma SettledStays(s: State, a: Action, c: CallId)
    requires Enabled(s, a) && AboutPlace(s, a) && IsSettled(s, c) && StageOk(s, c)
    ensures IsSettled(Apply(s, a), c)
  {
    if Subscribes(a) || Enters(a) {
      SettledStaysEntering(s, a, c);
    }
  }

  lemma OnSchedulerKept(s: State, a: Action, h: HandlerId)
    requires Enabled(s, a) && h in Apply(s, a).handlers && Apply(s, a).handlers[h].onScheduler
    requires !(a.RunItem? && a.handler == h)
    ensures h in s.handlers && s.handlers[h].onScheduler
  {
  }

  lemma RecordingReached(s: State, a: Action, c: CallId)
    requires Enabled(s, a) && c in Apply(s, a).callers && Apply(s, a).callers[c].Recording?
    ensures c in s.callers
    ensures (a == Store(c) && s.callers[c] == Storing(Apply(s, a).callers[c].task)) ||
      s.callers[c] == Apply(s, a).callers[c]
  {
  }

  /** `CancelTimeout` finds nothing because the call it is for has yet to record its timeout. */
  predicate Overtakes(s: State, a: Action) {
    && a.CancelNothing? && a.handler in s.handlers && s.handlers[a.handler].at.Cancelling?
    && BeforeRecord(s, s.handlers[a.handler].at.call)
  }

  /** A handler does not give up while the entry it is about to claim is pending. */
  lemma ClaimingStays(s: State, a: Action, h: HandlerId, c: CallId)
    requires Enabled(s, a) && IsEntry(s, c) && IsEntry(Apply(s, a), c)
    requires h in s.handlers && s.handlers[h].at.Claiming? && s.handlers[h].request == s.specs[c].request
    ensures h in Apply(s, a).handlers && Apply(s, a).handlers[h] == s.handlers[h]
  {
    if MovedBy(a) != Some(h) {
      OtherHandlersStay(s, a, h);
    }
  }

  /** A pending entry goes by being claimed. */
  lemma EntryStaysOrSettles(s: State, a: Action, c: CallId)
    requires Enabled(s, a) && PlaceInv(s) && IsEntry(s, c)
    ensures IsEntry(Apply(s, a), c) || IsSettled(Apply(s, a), c)
  {
    PlaceInvKept(s, a);
    var t := Apply(s, a);
    assert EnteredOk(s, c) && StageOk(s, c) && EnteredOk(t, c) && StageOk(t, c);
    NeverBeforeAgain(s, a, c);
  }

  lemma NeverBeforeAgain(s: State, a: Action, c: CallId)
    requires Enabled(s, a) && StageOk(s, c) && c in s.place && s.place[c] != Before
    requires AboutPlace(s, a)
    ensures c in Apply(s, a).place && Apply(s, a).place[c] != Before
  {
  }

  /** While a call's entry is pending it is the same entry. */
  lemma EntryStays(s: State, a: Action, c: CallId)
    requires Enabled(s, a) && IsEntry(s, c) && IsEntry(Apply(s, a), c)
    ensures Apply(s, a).specs[c] == s.specs[c]
    ensures Apply(s, a).calls[s.specs[c].request] == s.calls[s.specs[c].request]
  {
  }

  /** A slot id is never used again. */
  lemma SlotsAreFresh(s: State, a: Action, x: SlotId)
    requires Enabled(s, a) && x.number < NextNumber(s.counters, x.message)
    ensures x in Apply(s, a).slots ==> x in s.slots && Apply(s, a).slots[x] == s.slots[x]
    ensures x.number < NextNumber(Apply(s, a).counters, x.message)
  {
    if !Subscribes(a) && !Enters(a) {
      FieldsChange(s, a);
    }
  }

  // ---- Where handlers come from ----

  /** The handler runs a closure of its source call. */
  predicate SourceOk(s: State, h: HandlerId) {
    h in s.handlers ==>
      var handler := s.handlers[h];
      && handler.source in s.specs && s.specs[handler.source].request == handler.request
      && handler.callback == CallbackOf(s.specs[handler.source], handler.kind)
  }

  /** A completed call has run its own callback of that kind, if it was set. */
  predicate OwnCallbackOk(s: State, i: nat) {
    i < |s.trace| ==>
      s.trace[i].call in s.specs && s.trace[i].ran == CallbackOf(s.specs[s.trace[i].call], s.trace[i].kind)
  }

  /** The handler that a step is about, if it is about one. */
  function MovedBy(a: Action): Option<HandlerId> {
    match a
    case Deliver(h, _) => Some(h)
    case RunItem(h, _) => Some(h)
    case Claim(h) => Some(h)
    case Miss(h) => Some(h)
    case Cancel(h) => Some(h)
    case CancelNothing(h) => Some(h)
    case Unschedule(h) => Some(h)
    case Invoke(h) => Some(h)
    case _ => None
  }

  lemma OtherHandlersStay(s: State, a: Action, h: HandlerId)
    requires Enabled(s, a) && MovedBy(a) != Some(h)
    ensures h in s.handlers <==> h in Apply(s, a).handlers
    ensures h in s.handlers ==> Apply(s, a).handlers[h] == s.handlers[h]
  {
  }

  /** What a step does to one handler: leaves it, moves it on, or has just started it. */
  lemma HandlerMoves(s: State, a: Action, h: HandlerId)
    requires Enabled(s, a) && h in Apply(s, a).handlers
    ensures var now := Apply(s, a).handlers[h];
      if h in s.handlers then
        && now == s.handlers[h].(at := now.at)
        && (now.at.Claiming? || now.at.Cancelling? ==> s.handlers[h].at.Claiming? || s.handlers[h].at.Cancelling?)
      else
        match a
        case Deliver(g, x) =>
          var slot := s.slots[x];
          g == h && now == Handler(slot.request, slot.kind, slot.callback, false, Claiming, slot.call)
        case RunItem(g, closure) =>
          g == h && now == Handler(closure.request, Timeout, closure.callback, true, Claiming, closure.call)
        case _ => false
  {
    if MovedBy(a) != Some(h) {
      OtherHandlersStay(s, a, h);
    }
  }

  /** The handler a step starts runs a closure that its call has made. */
  predicate StartsTrue(s: State, a: Action)
    requires Enabled(s, a)
  {
    match a
    case Deliver(_, x) =>
      var c := s.slots[x].call; c in s.specs && s.slots[x] == SlotOf(s.specs[c], c, s.slots[x].kind)
    case RunItem(_, closure) => closure.call in s.specs && closure == ClosureOf(s.specs[closure.call], closure.call)
    case _ => true
  }

  lemma SourceKept(s: State, a: Action, h: HandlerId)
    requires Enabled(s, a) && StartsTrue(s, a) && SourceOk(s, h)
    ensures SourceOk(Apply(s, a), h)
  {
    SpecsStay(s, a);
    if h in Apply(s, a).handlers {
      HandlerMoves(s, a, h);
    }
  }

  lemma OwnCallbackKept(s: State, a: Action, i: nat)
    requires Enabled(s, a) && OwnCallbackOk(s, i) && CalledOnce(s)
    requires a.Invoke? ==> SourceOk(s, a.handler) && HolderOk(s, a.handler)
    ensures OwnCallbackOk(Apply(s, a), i)
  {
    SpecsStay(s, a);
    if a.Invoke? {
      assert SameCall(s, s.handlers[a.handler].at.call, s.handlers[a.handler].source);
    } else {
      FieldsChange(s, a);
    }
  }

  // ---- Handlers that come after their call ----

  /** The call has returned, or is about to send. */
  predicate Passed(s: State, c: CallId) {
    c in s.specs && (c in s.callers ==> s.callers[c].Sending?)
  }

  /** A handler that has not cancelled the timeout yet was started after its call had recorded it. */
  predicate LateOk(s: State, h: HandlerId) {
    h in s.handlers && (s.handlers[h].at.Claiming? || s.handlers[h].at.Cancelling?) ==> Passed(s, s.handlers[h].source)
  }

  lemma PassedStays(s: State, a: Action, c: CallId)
    requires Enabled(s, a) && Passed(s, c)
    ensures Passed(Apply(s, a), c)
  {
  }

  /** The handler a step starts comes after its call. */
  predicate StartsLate(s: State, a: Action)
    requires Enabled(s, a)
  {
    match a
    case Deliver(_, x) => Passed(s, s.slots[x].call)
    case RunItem(_, closure) => Passed(s, closure.call)
    case _ => true
  }

  lemma LateKept(s: State, a: Action, h: HandlerId)
    requires Enabled(s, a) && StartsLate(s, a) && LateOk(s, h)
    ensures LateOk(Apply(s, a), h)
  {
    if h in Apply(s, a).handlers {
      HandlerMoves(s, a, h);
      var c := Apply(s, a).handlers[h].source;
      if Passed(s, c) {
        PassedStays(s, a, c);
      }
    }
  }

  /** Then `CancelTimeout` overtakes no call. */
  lemma NoneOvertaken(s: State, a: Action)
    requires Enabled(s, a) && PlaceInv(s) && CalledOnce(s)
    requires a.CancelNothing? ==> SourceOk(s, a.handler) && LateOk(s, a.handler)
    ensures Apply(s, a).overtaken == s.overtaken
  {
    if a.CancelNothing? {
      var handler := s.handlers[a.handler];
      assert HolderOk(s, a.handler) && SameCall(s, handler.at.call, handler.source);
    }
  }

  // ---- What the invariants mean ----

  /** Each call completes at most once; so when `Call()` was invoked once per prepared request, each request runs at
      most one of its callbacks, and at most once. */
  lemma AtMostOneCompletion(s: State, i: nat, j: nat)
    requires PlaceInv(s) && i < j < |s.trace|
    ensures s.trace[i].call != s.trace[j].call
    ensures CalledOnce(s) ==> s.trace[i].request != s.trace[j].request
  {
    assert DoneOk(s, i) && DoneOk(s, j);
    assert CalledOnce(s) ==> SameCall(s, s.trace[i].call, s.trace[j].call);
  }

  /** A pending request has not completed, and no handler holds it. */
  lemma PendingIsNotCompleted(s: State, r: RequestId)
    requires PlaceInv(s) && CalledOnce(s) && r in s.calls
    ensures forall i :: 0 <= i < |s.trace| ==> s.trace[i].request != r
    ensures forall h :: h in s.handlers && PastClaim(s.handlers[h]) ==> s.handlers[h].request != r
  {
    var c := s.calls[r].call;
    assert EntryOk(s, r) && EnteredOk(s, c);
    forall i | 0 <= i < |s.trace| ensures s.trace[i].request != r {
      assert DoneOk(s, i) && SameCall(s, s.trace[i].call, c);
    }
    forall h | h in s.handlers && PastClaim(s.handlers[h]) ensures s.handlers[h].request != r {
      assert HolderOk(s, h) && SameCall(s, s.handlers[h].at.call, c);
    }
  }

  predicate NoneSubscribing(s: State) {
    forall c :: c in s.callers ==> !s.callers[c].Half? && !s.callers[c].Full?
  }

  function SuccessSlots(s: State): map<RequestId, SlotId> {
    map r | r in s.calls :: s.calls[r].success
  }

  function ErrorSlots(s: State): map<RequestId, SlotId> {
    map r | r in s.calls :: s.calls[r].error
  }

  predicate EntriesApart(s: State, q: RequestId, r: RequestId) {
    q in s.calls && r in s.calls ==>
      && s.calls[q].success != s.calls[r].error
      && (q != r ==> s.calls[q].success != s.calls[r].success && s.calls[q].error != s.calls[r].error)
  }

  /** When no call is subscribing, the slots in all the signals are the two slots of each pending request, all
      distinct: nothing has leaked and nothing is missing. */
  lemma SubscriptionConservation(s: State)
    requires PlaceInv(s) && SlotInv(s) && NoneSubscribing(s)
    ensures s.slots.Keys == SuccessSlots(s).Values + ErrorSlots(s).Values
    ensures forall q, r :: EntriesApart(s, q, r)
    ensures |s.slots| == 2 * |s.calls|
  {
    SlotsAreHeld(s);
    forall q, r ensures EntriesApart(s, q, r) {
      if q in s.calls && r in s.calls {
        EntryHoldsBoth(s, q);
        EntryHoldsBoth(s, r);
      }
    }
    SlotCount(s);
  }

  lemma SlotCount(s: State)
    requires forall q, r :: EntriesApart(s, q, r)
    ensures |SuccessSlots(s).Values + ErrorSlots(s).Values| == 2 * |s.calls|
  {
    var successes, errors := SuccessSlots(s), ErrorSlots(s);
    forall q, r | q in s.calls && r in s.calls
      ensures successes[q] != errors[r] && (q != r ==> successes[q] != successes[r] && errors[q] != errors[r])
    {
      assert EntriesApart(s, q, r);
    }
    CountValues(successes);
    CountValues(errors);
    assert successes.Keys == s.calls.Keys && errors.Keys == s.calls.Keys;
    assert successes.Values !! errors.Values;
  }

  lemma SlotsAreHeld(s: State)
    requires PlaceInv(s) && SlotInv(s) && NoneSubscribing(s)
    ensures s.slots.Keys == SuccessSlots(s).Values + ErrorSlots(s).Values
  {
    var successes, errors := SuccessSlots(s), ErrorSlots(s);
    forall x | x in s.slots ensures x in successes.Values + errors.Values {
      assert SlotOk(s, x);
      var r := s.specs[s.slots[x].call].request;
      assert r in s.calls;
      assert successes[r] in successes.Values && errors[r] in errors.Values;
    }
    forall x | x in successes.Values + errors.Values ensures x in s.slots {
      var r :| r in s.calls && (s.calls[r].success == x || s.calls[r].error == x);
      EntryHoldsBoth(s, r);
    }
  }

  lemma EntryHoldsBoth(s: State, r: RequestId)
    requires PlaceInv(s) && SlotInv(s) && r in s.calls
    ensures IsSlotOf(s, s.calls[r].call, Success, s.calls[r].success)
    ensures IsSlotOf(s, s.calls[r].call, Error, s.calls[r].error)
    ensures s.calls[r].call in s.specs && s.specs[s.calls[r].call].request == r
  {
    var c := s.calls[r].call;
    assert EntryOk(s, r) && EnteredOk(s, c) && StageOk(s, c) && HandleOk(s, c);
  }

  lemma {:induction false} CountValues(f: map<RequestId, SlotId>)
    requires forall q, r :: q in f && r in f && q != r ==> f[q] != f[r]
    ensures |f.Values| == |f.Keys|
    decreases f.Keys
  {
    if f.Keys != {} {
      var r :| r in f.Keys;
      var rest := f - {r};
      assert rest.Keys == f.Keys - {r};
      CountValues(rest);
      forall x | x in f.Values - {f[r]} ensures x in rest.Values {
        var q :| q in f && f[q] == x;
        assert q in rest && rest[q] == x;
      }
      forall x | x in rest.Values ensures x in f.Values - {f[r]} {
        var q :| q in rest && rest[q] == x;
        assert f[q] == x;
      }
      assert rest.Values == f.Values - {f[r]};
    } else {
      assert f.Values == {};
    }
  }

  /** No `HandleCallback` and no `Call` past its entry is under way. */
  predicate Quiet(s: State) {
    && (forall h :: h in s.handlers ==> !PastClaim(s.handlers[h]))
    && (forall c :: c in s.callers ==> !BeforeRecord(s, c))
  }

  predicate IsPendingWithTimeout(s: State, r: RequestId) {
    r in s.calls && s.calls[r].call in s.specs && s.specs[s.calls[r].call].timeout.Some?
  }

  predicate IsOvertaken(s: State, r: RequestId) {
    exists c :: c in s.overtaken && c in s.specs && s.specs[c].request == r
  }

  /** When all is quiet the timeout table holds the pending requests that set a timeout, and the requests whose
      `CancelTimeout` overtook their `ScheduleTimeout`, whose entries are never removed. */
  lemma TimeoutTableExactly(s: State, r: RequestId)
    requires PlaceInv(s) && TimeoutInv(s) && AgreeInv(s) && CalledOnce(s) && Quiet(s)
    ensures r in s.timeouts <==> IsPendingWithTimeout(s, r) || IsOvertaken(s, r)
    ensures !(IsPendingWithTimeout(s, r) && IsOvertaken(s, r))
  {
    if r in s.timeouts {
      assert TableOk(s, r);
      RecordedCall(s, s.owner[s.timeouts[r]]);
    }
    if IsPendingWithTimeout(s, r) {
      var c := s.calls[r].call;
      assert EntryOk(s, r) && EnteredOk(s, c) && TimeoutOk(s, c) && ArmOk(s, c) && AgreeOk(s, c);
      forall d | d in s.overtaken ensures d in s.specs && s.specs[d].request != r {
        assert OvertakenOk(s, d) && SameCall(s, c, d);
      }
    }
    if IsOvertaken(s, r) {
      var c :| c in s.overtaken && c in s.specs && s.specs[c].request == r;
      assert OvertakenOk(s, c) && ArmOk(s, c) && AgreeOk(s, c);
    }
  }

  /** A recorded call whose entry is in the table is pending or overtaken. */
  lemma RecordedCall(s: State, c: CallId)
    requires PlaceInv(s) && TimeoutInv(s) && AgreeInv(s) && Quiet(s)
    requires c in s.recorded && c in s.specs && c in s.armed
    requires s.specs[c].request in s.timeouts && s.timeouts[s.specs[c].request] == s.armed[c]
    ensures IsPendingWithTimeout(s, s.specs[c].request) || c in s.overtaken
  {
    assert AgreeOk(s, c) && ArmOk(s, c) && StageOk(s, c) && EnteredOk(s, c) && HeldOk(s, c) && TimeoutOk(s, c);
  }

  /** The keys of the timeout table are exactly the pending requests that set a timeout if and only if no call was
      overtaken. */
  lemma TimeoutTableAgreesExactly(s: State)
    requires PlaceInv(s) && TimeoutInv(s) && AgreeInv(s) && CalledOnce(s) && Quiet(s)
    ensures (forall r :: r in s.timeouts <==> IsPendingWithTimeout(s, r)) <==> s.overtaken == {}
  {
    forall r ensures r in s.timeouts <==> IsPendingWithTimeout(s, r) || IsOvertaken(s, r)
      ensures !(IsPendingWithTimeout(s, r) && IsOvertaken(s, r))
    {
      TimeoutTableExactly(s, r);
    }
    if s.overtaken != {} {
      var c :| c in s.overtaken;
      assert OvertakenOk(s, c);
      assert IsOvertaken(s, s.specs[c].request);
    }
  }

  /** Two requests never share a task. */
  lemma TimeoutTableIsInjective(s: State, q: RequestId, r: RequestId)
    requires TimeoutInv(s) && q in s.timeouts && r in s.timeouts && s.timeouts[q] == s.timeouts[r]
    ensures q == r
  {
    assert TableOk(s, q) && TableOk(s, r);
  }
}
