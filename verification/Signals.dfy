/**
 Signals: slots by id, emission over a snapshot of the ids while the slots themselves subscribe and
 unsubscribe, and the handles that own the slots.
 `S` stands for the type of a slot's function, a value that is only stored here.
 */
module Signals {
  import opened Scripts

  type SlotId = nat

  /** What the body of a slot may do to the signal that is invoking it. */
  datatype Op<S> = Subscribe(slot: S) | Unsubscribe(id: SlotId)

  /** The slots of one signal, and the id the next subscription draws. */
  datatype Slots<S> = Slots(table: map<SlotId, S>, next: SlotId)

  ghost predicate FreshIds<S>(s: Slots<S>) {
    forall id :: id in s.table ==> id < s.next
  }

  function Perform<S>(s: Slots<S>, op: Op<S>): Slots<S> {
    match op
    case Subscribe(slot) => Slots(s.table[s.next := slot], s.next + 1)
    case Unsubscribe(id) => s.(table := s.table - {id})
  }

  function PerformAll<S>(s: Slots<S>, ops: seq<Op<S>>): Slots<S> {
    if ops == [] then s else Perform(PerformAll(s, ops[..|ops| - 1]), ops[|ops| - 1])
  }

  /** The slots, and the ids invoked, when an emission has gone through the first `n` ids of its snapshot. */
  function Reached<S>(s: Slots<S>, snapshot: seq<SlotId>, n: nat, script: Script<Op<S>>): (Slots<S>, seq<SlotId>)
    requires n <= |snapshot|
  {
    if n == 0 then (s, [])
    else
      var (t, invoked) := Reached(s, snapshot, n - 1, script);
      var id := snapshot[n - 1];
      if id in t.table then (PerformAll(t, script(|invoked|)), invoked + [id]) else (t, invoked)
  }

  function Invoked<S>(s: Slots<S>, snapshot: seq<SlotId>, script: Script<Op<S>>): seq<SlotId> {
    Reached(s, snapshot, |snapshot|, script).1
  }

  ghost predicate IsOrderOf(snapshot: seq<SlotId>, ids: set<SlotId>) {
    && (forall i, j :: 0 <= i < j < |snapshot| ==> snapshot[i] != snapshot[j])
    && (forall id :: id in snapshot <==> id in ids)
  }

  /** The counter that every signal of one type draws its ids from (a function-local static). */
  class IdCounter {
    var next: SlotId

    constructor ()
      ensures next == 0
    {
      next := 0;
    }
  }

  class SignalState<S> {
    const counter: IdCounter
    var slots: map<SlotId, S>
    /** Whether a shared pointer still holds the state; a weak pointer to it locks exactly then. */
    var alive: bool

    ghost function View(): Slots<S>
      reads this, counter
    {
      Slots(slots, counter.next)
    }

    constructor (counter: IdCounter)
      ensures this.counter == counter && slots == map[] && alive
    {
      this.counter := counter;
      slots, alive := map[], true;
    }

    method Subscribe(slot: S) returns (id: SlotId)
      modifies this`slots, counter
      ensures View() == Perform(old(View()), Op.Subscribe(slot))
      ensures id == old(counter.next) && counter.next == id + 1 && slots == old(slots)[id := slot]
    {
      id := counter.next;
      counter.next := counter.next + 1;
      slots := slots[id := slot];
    }

    method Unsubscribe(id: SlotId)
      modifies this`slots
      ensures View() == Perform(old(View()), Op<S>.Unsubscribe(id))
      ensures slots == old(slots) - {id} && counter.next == old(counter.next)
    {
      slots := slots - {id};
    }

    /** Runs the body of the slot being invoked. */
    method Invoke(ops: seq<Op<S>>)
      modifies this`slots, counter
      ensures View() == PerformAll(old(View()), ops)
    {
      for i := 0 to |ops|
        invariant View() == PerformAll(old(View()), ops[..i])
      {
        assert ops[..i + 1][..i] == ops[..i];
        match ops[i]
        case Subscribe(slot) => var _ := Subscribe(slot);
        case Unsubscribe(id) => Unsubscribe(id);
      }
      assert ops[..|ops|] == ops;
    }

    /** Collects the ids in any order, then looks each one up again before invoking it. */
    method Emit(script: Script<Op<S>>) returns (snapshot: seq<SlotId>, invoked: seq<SlotId>)
      modifies this`slots, counter
      ensures IsOrderOf(snapshot, old(slots.Keys))
      ensures (View(), invoked) == Reached(old(View()), snapshot, |snapshot|, script)
    {
      snapshot := [];
      var remaining := slots.Keys;
      while remaining != {}
        invariant remaining <= slots.Keys && slots == old(slots) && counter.next == old(counter.next)
        invariant IsOrderOf(snapshot, slots.Keys - remaining)
      {
        var id :| id in remaining;
        remaining := remaining - {id};
        snapshot := snapshot + [id];
      }
      assert slots.Keys - {} == slots.Keys;
      invoked := [];
      for i := 0 to |snapshot|
        invariant (View(), invoked) == Reached(old(View()), snapshot, i, script)
      {
        if snapshot[i] in slots {
          Invoke(script(|invoked|));
          invoked := invoked + [snapshot[i]];
        }
      }
    }
  }

  // ---- Emission ----

  lemma {:induction false} PerformedId<S>(s: Slots<S>, ops: seq<Op<S>>, id: SlotId)
    requires FreshIds(s) && id < s.next
    ensures var t := PerformAll(s, ops);
      && FreshIds(t) && s.next <= t.next
      && (id in t.table <==> id in s.table && Op<S>.Unsubscribe(id) !in ops)
      && (id in t.table ==> t.table[id] == s.table[id])
  {
    if ops != [] {
      var front, last := ops[..|ops| - 1], ops[|ops| - 1];
      assert ops == front + [last];
      PerformedId(s, front, id);
    }
  }

  // ---- What is subscribed during an emission ----

  /** How many slots the operations subscribe. */
  function Subscriptions<S>(ops: seq<Op<S>>): nat {
    if ops == [] then 0 else Subscriptions(ops[..|ops| - 1]) + if ops[|ops| - 1].Subscribe? then 1 else 0
  }

  /** Operation `i` subscribes the slot `id`. */
  predicate Subscribes<S>(first: SlotId, ops: seq<Op<S>>, i: nat, id: SlotId) {
    i < |ops| && ops[i].Subscribe? && id == first + Subscriptions(ops[..i])
  }

  lemma {:induction false} PerformedNext<S>(s: Slots<S>, ops: seq<Op<S>>)
    requires FreshIds(s)
    ensures FreshIds(PerformAll(s, ops)) && PerformAll(s, ops).next == s.next + Subscriptions(ops)
  {
    if ops != [] {
      PerformedNext(s, ops[..|ops| - 1]);
    }
  }

  lemma {:induction false} SubscriptionsLess<S>(ops: seq<Op<S>>, i: nat)
    requires i < |ops| && ops[i].Subscribe?
    ensures Subscriptions(ops[..i]) < Subscriptions(ops)
  {
    var front := ops[..|ops| - 1];
    if i < |ops| - 1 {
      assert front[..i] == ops[..i];
      SubscriptionsLess(front, i);
    } else {
      assert ops[..i] == front;
    }
  }

  /** The slot that operation `i` subscribes is there afterwards exactly if no later operation unsubscribes it. */
  lemma {:induction false} PerformedNew<S>(s: Slots<S>, ops: seq<Op<S>>, i: nat, id: SlotId)
    requires FreshIds(s) && Subscribes(s.next, ops, i, id)
    ensures var t := PerformAll(s, ops);
      && (id in t.table <==> Op<S>.Unsubscribe(id) !in ops[i + 1..])
      && (id in t.table ==> t.table[id] == ops[i].slot)
  {
    var front, last := ops[..|ops| - 1], ops[|ops| - 1];
    PerformedNext(s, front);
    assert ops == front + [last];
    if i < |ops| - 1 {
      assert front[..i] == ops[..i];
      PerformedNew(s, front, i, id);
      SubscriptionsLess(front, i);
      assert ops[i + 1..] == front[i + 1..] + [last];
    } else {
      assert ops[..i] == front && ops[i + 1..] == [];
    }
  }

  /** No other slot is new. */
  lemma {:induction false} PerformedOnlySubscribed<S>(s: Slots<S>, ops: seq<Op<S>>, id: SlotId) returns (i: nat)
    requires FreshIds(s) && id >= s.next && id in PerformAll(s, ops).table
    ensures Subscribes(s.next, ops, i, id)
  {
    var front := ops[..|ops| - 1];
    PerformedNext(s, front);
    if id in PerformAll(s, front).table {
      i := PerformedOnlySubscribed(s, front, id);
      assert front[..i] == ops[..i];
    } else {
      i := |ops| - 1;
    }
  }

  lemma {:induction false} PerformAllConcat<S>(s: Slots<S>, ops: seq<Op<S>>, more: seq<Op<S>>)
    ensures PerformAll(s, ops + more) == PerformAll(PerformAll(s, ops), more)
  {
    if more == [] {
      assert ops + more == ops;
    } else {
      assert (ops + more)[..|ops + more| - 1] == ops + more[..|more| - 1];
      PerformAllConcat(s, ops, more[..|more| - 1]);
    }
  }

  /** The slots after an emission are those after all the operations of the slots it invoked, in order. */
  lemma {:induction false} ReachedIsFlat<S>(s: Slots<S>, snapshot: seq<SlotId>, n: nat, script: Script<Op<S>>)
    requires n <= |snapshot|
    ensures var (t, invoked) := Reached(s, snapshot, n, script); t == PerformAll(s, Flat(script, |invoked|))
  {
    if n > 0 {
      ReachedIsFlat(s, snapshot, n - 1, script);
      var (t, invoked) := Reached(s, snapshot, n - 1, script);
      PerformAllConcat(s, Flat(script, |invoked|), script(|invoked|));
    }
  }

  /** After an emission, an old slot is subscribed exactly if no slot that was invoked unsubscribed it, and a new one
      exactly if an invoked slot subscribed it and none unsubscribed it later. */
  lemma SlotsAfterEmission<S(!new)>(s: Slots<S>, snapshot: seq<SlotId>, script: Script<Op<S>>, id: SlotId)
    requires FreshIds(s)
    ensures var (t, invoked) := Reached(s, snapshot, |snapshot|, script);
      var ops := Flat(script, |invoked|);
      if id < s.next then
        (id in t.table <==> id in s.table && Op<S>.Unsubscribe(id) !in ops)
        && (id in t.table ==> t.table[id] == s.table[id])
      else
        id in t.table <==> IsSubscribed(s, ops, id, t.table)
  {
    var (t, invoked) := Reached(s, snapshot, |snapshot|, script);
    var ops := Flat(script, |invoked|);
    ReachedIsFlat(s, snapshot, |snapshot|, script);
    if id < s.next {
      PerformedId(s, ops, id);
    } else if id in t.table {
      var i := PerformedOnlySubscribed(s, ops, id);
      PerformedNew(s, ops, i, id);
    }
  }

  /** An operation subscribes the slot `id`, as it is in the table, and no later one unsubscribes it. */
  ghost predicate IsSubscribed<S(!new)>(s: Slots<S>, ops: seq<Op<S>>, id: SlotId, table: map<SlotId, S>) {
    exists i: nat :: Subscribes(s.next, ops, i, id) && Op<S>.Unsubscribe(id) !in ops[i + 1..]
      && id in table && table[id] == ops[i].slot
  }

  /** Part way through an emission, an old id is still subscribed exactly if nothing invoked so far unsubscribed it. */
  lemma {:induction false} ReachedId<S>(s: Slots<S>, snapshot: seq<SlotId>, n: nat, script: Script<Op<S>>, id: SlotId)
    requires FreshIds(s) && id < s.next && n <= |snapshot|
    ensures var (t, invoked) := Reached(s, snapshot, n, script);
      && FreshIds(t) && s.next <= t.next && |invoked| <= n
      && (id in t.table <==> id in s.table && NoneDoes(script, |invoked|, Op<S>.Unsubscribe(id)))
  {
    if n > 0 {
      ReachedId(s, snapshot, n - 1, script, id);
      var (t, invoked) := Reached(s, snapshot, n - 1, script);
      if snapshot[n - 1] in t.table {
        PerformedId(t, script(|invoked|), id);
      }
    }
  }

  /** The slots an emission invokes are snapshot slots, each at most once and in the order of the snapshot;
      so none that was subscribed while it ran, and no more invocations than the snapshot has slots. */
  lemma {:induction false} InvokedFromSnapshot<S>(s: Slots<S>, snapshot: seq<SlotId>, n: nat, script: Script<Op<S>>)
      returns (at: seq<nat>)
    requires FreshIds(s) && IsOrderOf(snapshot, s.table.Keys) && n <= |snapshot|
    ensures var invoked := Reached(s, snapshot, n, script).1;
      && |at| == |invoked| <= n
      && (forall k :: 0 <= k < |at| ==> at[k] < n && invoked[k] == snapshot[at[k]])
      && (forall k, l :: 0 <= k < l < |at| ==> at[k] < at[l])
      && (forall id :: id in invoked ==> id in s.table && id < s.next)
  {
    if n == 0 {
      at := [];
    } else {
      at := InvokedFromSnapshot(s, snapshot, n - 1, script);
      if snapshot[n - 1] in Reached(s, snapshot, n - 1, script).0.table {
        at := at + [n - 1];
      }
    }
    var invoked := Reached(s, snapshot, n, script).1;
    forall id | id in invoked ensures id in s.table && id < s.next {
      var k :| 0 <= k < |invoked| && invoked[k] == id;
      assert snapshot[at[k]] in snapshot;
    }
  }

  lemma {:induction false} InvokedStays<S>(s: Slots<S>, snapshot: seq<SlotId>, m: nat, n: nat, script: Script<Op<S>>)
    requires m <= n <= |snapshot|
    ensures Reached(s, snapshot, m, script).1 <= Reached(s, snapshot, n, script).1
  {
    if m < n {
      InvokedStays(s, snapshot, m, n - 1, script);
    }
  }

  /** The slot at position `p` of the snapshot is invoked if and only if it is still subscribed when the emission
      reaches it, which is if and only if no slot invoked earlier has unsubscribed it. */
  lemma EmissionExactness<S>(s: Slots<S>, snapshot: seq<SlotId>, p: nat, script: Script<Op<S>>)
    requires FreshIds(s) && IsOrderOf(snapshot, s.table.Keys) && p < |snapshot|
    ensures var (t, before) := Reached(s, snapshot, p, script);
      && (snapshot[p] in Invoked(s, snapshot, script) <==> snapshot[p] in t.table)
      && (snapshot[p] in t.table <==> NoneDoes(script, |before|, Op<S>.Unsubscribe(snapshot[p])))
  {
    assert snapshot[p] in snapshot;
    ReachedId(s, snapshot, p, script, snapshot[p]);
    InvokedStays(s, snapshot, p + 1, |snapshot|, script);
    var (t, before) := Reached(s, snapshot, p, script);
    var all := Invoked(s, snapshot, script);
    if snapshot[p] in t.table {
      assert all[|before|] == snapshot[p];
    } else {
      NotInvokedYet(s, snapshot, p, |snapshot|, script);
    }
  }

  /** A slot that is gone when it is reached is not among the slots invoked. */
  lemma {:induction false} NotInvokedYet<S>(s: Slots<S>, snapshot: seq<SlotId>, p: nat, n: nat, script: Script<Op<S>>)
    requires FreshIds(s) && IsOrderOf(snapshot, s.table.Keys) && p < n <= |snapshot|
    requires snapshot[p] !in Reached(s, snapshot, p, script).0.table
    ensures snapshot[p] !in Reached(s, snapshot, n, script).1
  {
    if p + 1 < n {
      NotInvokedYet(s, snapshot, p, n - 1, script);
    } else {
      var at := InvokedFromSnapshot(s, snapshot, p, script);
    }
  }

  // ---- Handles ----

  /** The owner of one slot: the slot's id and a weak pointer to its signal, null once it has let go. */
  class SignalSubscription<S> {
    var id: int
    var signal: SignalState?<S>

    constructor Empty()
      ensures id == -1 && signal == null
    {
      id, signal := -1, null;
    }

    constructor (id: SlotId, signal: SignalState<S>)
      ensures this.id == id && this.signal == signal
    {
      this.id, this.signal := id, signal;
    }

    /** Move construction: the pointer moves, the id is copied. */
    constructor MoveFrom(other: SignalSubscription<S>)
      modifies other`signal
      ensures id == old(other.id) && signal == old(other.signal)
      ensures other.signal == null
    {
      id, signal := other.id, other.signal;
      new;
      other.signal := null;
    }

    ghost function Target(): set<SignalState<S>>
      reads this`signal
    {
      if signal == null then {} else {signal}
    }

    method Unsubscribe()
      requires signal != null ==> id >= 0
      modifies this`signal, Target()`slots
      ensures signal == null
      ensures var was := old(signal);
        was != null ==> was.slots == if was.alive then old(signal.slots) - {old(id) as nat} else old(signal.slots)
    {
      var state := if signal != null && signal.alive then signal else null;
      signal := null;
      if state == null {
        return;
      }
      state.Unsubscribe(id);
    }

    /** Move assignment. */
    method MoveAssign(other: SignalSubscription<S>)
      requires signal != null ==> id >= 0
      modifies this, other`signal, Target()`slots
      ensures this == other ==> id == old(id) && signal == old(signal)
      ensures this != other ==> id == old(other.id) && signal == old(other.signal) && other.signal == null
      ensures var was := old(signal);
        was != null ==>
          was.slots == if this != other && was.alive then old(signal.slots) - {old(id) as nat} else old(signal.slots)
    {
      if this == other {
        return;
      }
      Unsubscribe();
      id := other.id;
      signal := other.signal;
      other.signal := null;
    }
  }

  /** All the handles and all the signals of one type that a program has. */
  class HandleScope<S> {
    ghost var handles: set<SignalSubscription<S>>
    ghost var signals: set<SignalState<S>>
    ghost var owner: map<SlotId, SignalSubscription<S>>
    const counter: IdCounter

    ghost predicate Owns(h: SignalSubscription<S>, g: SignalState<S>, id: SlotId)
      reads this`handles, h
    {
      h in handles && h.signal == g && h.id == id
    }

    ghost predicate Valid()
      reads this, handles, signals, counter
    {
      && (forall g :: g in signals ==> g.counter == counter && forall id :: id in g.slots ==> id < counter.next)
      && (forall g, id :: g in signals && g.alive && id in g.slots ==>
            id in owner && owner[id] in handles && Owns(owner[id], g, id))
      && (forall h :: h in handles && h.signal != null ==>
            && h.signal in signals && 0 <= h.id < counter.next
            && (h.signal.alive ==> h.id in h.signal.slots && owner[h.id] == h))
    }

    /** A live signal's slot ids are exactly the ids held by the handles that point to it, and each is held once. */
    lemma SlotsAreOwned(g: SignalState<S>, id: SlotId)
      requires Valid() && g in signals && g.alive
      ensures id in g.slots <==> exists h :: h in handles && h.signal == g && h.id == id
      ensures forall h, k :: h in handles && k in handles && h.signal == g && k.signal == g && h.id == k.id ==> h == k
    {
      if id in g.slots {
        assert owner[id] in handles && owner[id].signal == g && owner[id].id == id;
      }
    }

    constructor ()
      ensures Valid() && handles == {} && signals == {}
    {
      counter := new IdCounter();
      handles, signals, owner := {}, {}, map[];
    }

    method NewSignal() returns (g: SignalState<S>)
      requires Valid()
      modifies this
      ensures Valid()
      ensures fresh(g) && g.slots == map[] && g.alive && signals == old(signals) + {g} && handles == old(handles)
    {
      g := new SignalState(counter);
      signals := signals + {g};
    }

    /** The last shared pointer to the state goes away. */
    method DropSignal(g: SignalState<S>)
      requires Valid() && g in signals
      modifies g`alive
      ensures Valid() && !g.alive
    {
      g.alive := false;
    }

    method Subscribe(g: SignalState<S>, slot: S) returns (h: SignalSubscription<S>)
      requires Valid() && g in signals
      modifies this, g`slots, counter
      ensures Valid()
      ensures fresh(h) && handles == old(handles) + {h} && signals == old(signals)
      ensures h.signal == g && h.id == old(counter.next) && g.slots == old(g.slots)[old(counter.next) := slot]
    {
      var id := g.Subscribe(slot);
      h := new SignalSubscription(id, g);
      handles, owner := handles + {h}, owner[id := h];
    }

    method MoveConstruct(other: SignalSubscription<S>) returns (h: SignalSubscription<S>)
      requires Valid() && other in handles
      modifies this, other`signal
      ensures Valid()
      ensures fresh(h) && handles == old(handles) + {h} && signals == old(signals)
      ensures h.signal == old(other.signal) && h.id == old(other.id) && other.signal == null
    {
      h := new SignalSubscription.MoveFrom(other);
      handles := handles + {h};
      if h.signal != null && h.signal.alive {
        owner := owner[h.id := h];
      }
    }

    /** The slot `h` owned is gone, whatever `other` owned has moved to `h`, and no other slot has changed. */
    method MoveAssign(h: SignalSubscription<S>, other: SignalSubscription<S>)
      requires Valid() && h in handles && other in handles
      modifies this`owner, h, other`signal, h.Target()`slots
      ensures Valid()
      ensures h == other ==> h.signal == old(h.signal) && h.id == old(h.id)
      ensures h != other ==> h.signal == old(other.signal) && h.id == old(other.id) && other.signal == null
      ensures forall g :: g in signals ==>
        g.slots == if h != other && old(h.signal) == g && g.alive then old(g.slots) - {old(h.id)} else old(g.slots)
    {
      if other.signal != null && other.signal.alive {
        owner := owner[other.id := h];
      }
      h.MoveAssign(other);
    }

    /** A handle that is empty, whether moved from or unsubscribed before, removes nothing. */
    method Unsubscribe(h: SignalSubscription<S>)
      requires Valid() && h in handles
      modifies h`signal, h.Target()`slots
      ensures Valid() && h.signal == null
      ensures forall g :: g in signals ==>
        g.slots == if old(h.signal) == g && g.alive then old(g.slots) - {old(h.id)} else old(g.slots)
    {
      h.Unsubscribe();
    }

    /** The destructor. */
    method Destroy(h: SignalSubscription<S>)
      requires Valid() && h in handles
      modifies this`handles, h`signal, h.Target()`slots
      ensures Valid() && handles == old(handles) - {h}
      ensures forall g :: g in signals ==>
        g.slots == if old(h.signal) == g && g.alive then old(g.slots) - {old(h.id)} else old(g.slots)
    {
      Unsubscribe(h);
      handles := handles - {h};
    }
  }
}
