/**
 The queued executor: producers post, one consumer swaps the queue out under the lock and runs the batch
 without it, and anyone, the tasks included, may stop it.
 */
module Executor {
  import opened Scripts

  /** A task, possibly empty (a null function). */
  datatype Task<+T> = Null | Fn(body: T)

  /** What the body of a task may do to the executor that is running it. */
  datatype Op<+T> = Post(task: Task<T>) | Stop

  // ---- Any number of producers, one consumer ----

  /** Where the consumer is in `ProcessBlocking`: outside; in the loop with `rest` to run; or past the running check
      for the first task of `rest`. */
  datatype Phase<+T> = Outside | Batch(rest: seq<Task<T>>) | Checked(rest: seq<Task<T>>)

  datatype State<+T> = State(
    running: bool,
    queue: seq<Task<T>>,
    phase: Phase<T>,
    accepted: seq<Task<T>>,
    consumed: seq<Task<T>>)

  /** `Take` swaps the queue out; `Check` reads `running_` before a task, `Consume` takes the task and runs it. */
  datatype Action<+T> = Submit(task: Task<T>) | Halt | Take | Check | Consume | Finish

  function Initial<T>(): State<T> {
    State(true, [], Outside, [], [])
  }

  function Pending<T>(s: State<T>): seq<Task<T>> {
    if s.phase.Outside? then [] else s.phase.rest
  }

  ghost predicate Enabled<T>(s: State<T>, a: Action<T>) {
    match a
    case Submit(_) => true
    case Halt => true
    case Take => s.phase.Outside? && (!s.running || s.queue != [])
    case Check => s.phase.Batch? && s.phase.rest != []
    case Consume => s.phase.Checked? && s.phase.rest != []
    case Finish => s.phase == Batch([])
  }

  ghost function Apply<T>(s: State<T>, a: Action<T>): State<T>
    requires Enabled(s, a)
  {
    match a
    case Submit(task) =>
      if s.running then s.(queue := s.queue + [task], accepted := s.accepted + [task]) else s
    case Halt => s.(running := false)
    case Take => s.(queue := [], phase := Batch(s.queue))
    case Check => s.(phase := if s.running then Checked(s.phase.rest) else Outside)
    case Consume => s.(phase := Batch(s.phase.rest[1..]), consumed := s.consumed + [s.phase.rest[0]])
    case Finish => s.(phase := Outside)
  }

  ghost predicate IsRun<T>(ss: seq<State<T>>, acts: seq<Action<T>>) {
    && |ss| == |acts| + 1
    && ss[0] == Initial()
    && forall i {:trigger acts[i]} :: 0 <= i < |acts| ==> Enabled(ss[i], acts[i]) && ss[i + 1] == Apply(ss[i], acts[i])
  }

  ghost predicate Inv<T>(s: State<T>) {
    && (s.running ==> s.accepted == s.consumed + Pending(s) + s.queue)
    && s.consumed <= s.accepted
    && (s.phase.Checked? ==> s.phase.rest != [] && s.consumed + s.phase.rest <= s.accepted)
  }

  lemma InvKept<T>(s: State<T>, a: Action<T>)
    requires Inv(s) && Enabled(s, a)
    ensures Inv(Apply(s, a))
    ensures s.accepted <= Apply(s, a).accepted && s.consumed <= Apply(s, a).consumed
  {
    var t := Apply(s, a);
    match a
    case Submit(task) =>
      assert s.running ==> s.consumed + Pending(s) + (s.queue + [task]) == s.accepted + [task];
    case Halt =>
    case Take =>
      assert s.consumed + [] + s.queue == s.consumed + s.queue + [];
    case Check =>
    case Consume =>
      var rest := s.phase.rest;
      assert rest == [rest[0]] + rest[1..];
      assert s.consumed + rest == t.consumed + rest[1..];
    case Finish =>
  }

  /** Until `Stop`, the tasks consumed, then the rest of the batch, then the queue are the tasks accepted, in the
      order in which they were posted.  At any time the tasks consumed are the first ones accepted. */
  lemma {:induction false} ExecutorHistory<T>(ss: seq<State<T>>, acts: seq<Action<T>>, n: nat)
    requires IsRun(ss, acts) && n < |ss|
    ensures Inv(ss[n])
    ensures ss[n].running ==> ss[n].accepted == ss[n].consumed + Pending(ss[n]) + ss[n].queue
    ensures ss[n].consumed <= ss[n].accepted
  {
    if n > 0 {
      ExecutorHistory(ss, acts, n - 1);
      InvKept(ss[n - 1], acts[n - 1]);
    }
  }

  /** After `Stop` nothing is accepted, and at most the task whose running check had already passed still runs. */
  lemma {:induction false} NothingAfterStop<T>(ss: seq<State<T>>, acts: seq<Action<T>>, i: nat, n: nat)
    requires IsRun(ss, acts) && i < n < |ss| && acts[i] == Halt
    ensures !ss[n].running && ss[n].accepted == ss[i].accepted
    ensures ss[n].consumed == ss[i].consumed ||
      (ss[i].phase.Checked? && ss[i].phase.rest != [] && ss[n].consumed == ss[i].consumed + [ss[i].phase.rest[0]])
    ensures ss[n].phase.Checked? ==> ss[n].phase == ss[i].phase && ss[n].consumed == ss[i].consumed
  {
    if i < n - 1 {
      NothingAfterStop(ss, acts, i, n - 1);
      assert Enabled(ss[n - 1], acts[n - 1]);
    } else {
      assert Enabled(ss[i], acts[i]);
    }
  }

  /** Outside a batch and with an empty queue, a running executor has consumed everything it accepted. */
  lemma DrainedMeansConsumed<T>(ss: seq<State<T>>, acts: seq<Action<T>>, n: nat)
    requires IsRun(ss, acts) && n < |ss| && ss[n].running && Pending(ss[n]) == [] && ss[n].queue == []
    ensures ss[n].consumed == ss[n].accepted
  {
    ExecutorHistory(ss, acts, n);
    assert ss[n].consumed + [] + [] == ss[n].consumed;
  }

  // ---- The object ----

  /** The tasks that a body posts before it stops the executor, if it does. */
  function Posts<T>(ops: seq<Op<T>>): (tasks: seq<Task<T>>)
    ensures |tasks| <= |ops| && forall i :: 0 <= i < |tasks| ==> ops[i] == Op.Post(tasks[i])
    ensures |tasks| < |ops| ==> ops[|tasks|].Stop?
  {
    if ops == [] || ops[0].Stop? then [] else [ops[0].task] + Posts(ops[1..])
  }

  function PostsOf<T>(script: Script<Op<T>>): Script<Task<T>> {
    (k: nat) => Posts(script(k))
  }

  lemma {:induction false} PostsOneMore<T>(ops: seq<Op<T>>, op: Op<T>)
    ensures Posts(ops + [op]) == Posts(ops) + if Op<T>.Stop !in ops && op.Post? then [op.task] else []
  {
    if ops != [] {
      assert (ops + [op])[1..] == ops[1..] + [op];
      if !ops[0].Stop? {
        PostsOneMore(ops[1..], op);
        assert Op<T>.Stop in ops <==> Op<T>.Stop in ops[1..];
      }
    }
  }

  /** How many of the tasks have a body to run. */
  function Bodies<T>(ts: seq<Task<T>>): (n: nat)
    ensures n <= |ts|
  {
    if ts == [] then 0 else Bodies(ts[..|ts| - 1]) + if ts[|ts| - 1].Fn? then 1 else 0
  }

  lemma {:induction false} BodiesExactly<T>(ts: seq<Task<T>>, more: seq<Task<T>>)
    ensures Bodies(ts) == 0 <==> forall i :: 0 <= i < |ts| ==> ts[i].Null?
    ensures Bodies(ts) == |ts| <==> forall i :: 0 <= i < |ts| ==> ts[i].Fn?
    ensures Bodies(ts + more) == Bodies(ts) + Bodies(more)
    decreases |ts|, |more|
  {
    if ts != [] {
      BodiesExactly(ts[..|ts| - 1], []);
    }
    if more == [] {
      assert ts + more == ts;
    } else {
      BodiesExactly(ts, more[..|more| - 1]);
      assert (ts + more)[..|ts + more| - 1] == ts + more[..|more| - 1];
    }
  }

  /** How far a batch has got when `taken` of its tasks have been taken: the bodies run are those of the tasks taken, a
      body that stops the executor is the last one and that of the last task taken, and what the bodies posted before
      any stop has been posted, in order. */
  ghost predicate HasRun<T>(ts: seq<Task<T>>, taken: nat, script: Script<Op<T>>, running: bool, posted: seq<Task<T>>)
    requires taken <= |ts|
  {
    var ran := Bodies(ts[..taken]);
    && (forall k :: 0 <= k < ran && Op<T>.Stop in script(k) ==> k == ran - 1 && ts[taken - 1].Fn?)
    && (running <==> forall k :: 0 <= k < ran ==> Op<T>.Stop !in script(k))
    && posted == Flat(PostsOf(script), ran)
  }

  /** What running the body of one task makes of the executor. */
  ghost predicate HasRunBody<T>(was: State<T>, ops: seq<Op<T>>, now: State<T>) {
    && now.phase == was.phase && now.consumed == was.consumed
    && (now.running <==> was.running && Op<T>.Stop !in ops)
    && (if was.running then now.queue == was.queue + Posts(ops) && now.accepted == was.accepted + Posts(ops)
        else now == was)
  }

  lemma RunOneOp<T>(was: State<T>, ops: seq<Op<T>>, now: State<T>, op: Op<T>)
    requires HasRunBody(was, ops, now)
    ensures HasRunBody(was, ops + [op], Apply(now, match op case Post(task) => Submit(task) case Stop => Halt))
  {
    PostsOneMore(ops, op);
  }

  /** How far the loop has got, `was` being the state before the batch was taken. */
  ghost predicate Progress<T>(was: State<T>, taken: nat, now: State<T>, script: Script<Op<T>>) {
    && taken <= |was.queue| && now.phase == Batch(was.queue[taken..])
    && now.consumed == was.consumed + was.queue[..taken] && now.accepted == was.accepted + now.queue
    && HasRun(was.queue, taken, script, now.running, now.queue)
  }

  lemma TakenOneMore<T>(was: State<T>, taken: nat, now: State<T>, script: Script<Op<T>>)
    requires Progress(was, taken, now, script) && taken < |was.queue|
    ensures var t := Taking(now);
      t.phase == Batch(was.queue[taken + 1..]) && t.consumed == was.consumed + was.queue[..taken + 1]
    ensures Bodies(was.queue[..taken + 1]) == Bodies(was.queue[..taken]) + if was.queue[taken].Fn? then 1 else 0
  {
    var ts := was.queue;
    assert ts[..taken + 1] == ts[..taken] + [ts[taken]];
  }

  lemma ProgressOneMore<T>(
      was: State<T>, taken: nat, now: State<T>, taking: State<T>, after: State<T>, script: Script<Op<T>>)
    requires Progress(was, taken, now, script) && now.running && taken < |was.queue|
    requires taking == Taking(now)
    requires if was.queue[taken].Null? then after == taking
             else HasRunBody(taking, script(Bodies(was.queue[..taken])), after)
    ensures Progress(was, taken + 1, after, script)
    ensures Bodies(was.queue[..taken + 1]) == Bodies(was.queue[..taken]) + if was.queue[taken].Fn? then 1 else 0
  {
    TakenOneMore(was, taken, now, script);
    RunOneMore(was.queue, taken, script, now.queue);
    if was.queue[taken].Fn? {
      var posts := Posts(script(Bodies(was.queue[..taken])));
      assert was.accepted + now.queue + posts == was.accepted + (now.queue + posts);
    }
  }

  /** The next task is taken off the batch. */
  ghost function Taking<T>(s: State<T>): State<T>
    requires s.phase.Batch? && s.phase.rest != []
  {
    s.(phase := Batch(s.phase.rest[1..]), consumed := s.consumed + [s.phase.rest[0]])
  }

  lemma RunOneMore<T>(ts: seq<Task<T>>, taken: nat, script: Script<Op<T>>, posted: seq<Task<T>>)
    requires taken < |ts| && HasRun(ts, taken, script, true, posted)
    ensures ts[taken].Null? ==> HasRun(ts, taken + 1, script, true, posted)
    ensures ts[taken].Fn? ==>
      var ops := script(Bodies(ts[..taken]));
      HasRun(ts, taken + 1, script, Op<T>.Stop !in ops, posted + Posts(ops))
  {
    assert ts[..taken + 1][..taken] == ts[..taken];
  }

  /** One consumer and no other thread: the tasks alone post and stop while a batch runs.  `state` is the state of
      the transition system that the object is in. */
  class QueuedExecutor<T> {
    var running: bool
    var tasks: seq<Task<T>>
    ghost var state: State<T>

    ghost predicate Valid()
      reads this
    {
      running == state.running && tasks == state.queue && Inv(state)
    }

    constructor ()
      ensures Valid() && state == Initial()
    {
      running, tasks, state := true, [], Initial();
    }

    method Post(task: Task<T>)
      requires Valid()
      modifies this`tasks, this`state
      ensures Valid() && state == Apply(old(state), Submit(task))
      ensures tasks == if running then old(tasks) + [task] else old(tasks)
      ensures state.accepted == if running then old(state.accepted) + [task] else old(state.accepted)
      ensures running == old(running) && state.consumed == old(state.consumed)
    {
      InvKept(state, Submit(task));
      state := Apply(state, Submit(task));
      if !running {
        return;
      }
      tasks := tasks + [task];
    }

    method Stop()
      requires Valid()
      modifies this`running, this`state
      ensures Valid() && state == Apply(old(state), Halt) && !running
      ensures tasks == old(tasks) && state.accepted == old(state.accepted) && state.consumed == old(state.consumed)
    {
      InvKept(state, Halt);
      state := Apply(state, Halt);
      running := false;
    }

    method RunBody(ops: seq<Op<T>>)
      requires Valid()
      modifies this`running, this`tasks, this`state
      ensures Valid() && HasRunBody(old(state), ops, state)
      ensures old(running) ==> tasks == old(tasks) + Posts(ops) && state.accepted == old(state.accepted) + Posts(ops)
    {
      for i := 0 to |ops|
        invariant Valid() && HasRunBody(old(state), ops[..i], state)
      {
        assert ops[..i + 1] == ops[..i] + [ops[i]];
        RunOneOp(old(state), ops[..i], state, ops[i]);
        match ops[i]
        case Post(task) => Post(task);
        case Stop => Stop();
      }
      assert ops[..|ops|] == ops;
    }

    /** The steps of the loop up to the body of the task. */
    ghost method TakeOne()
      requires Valid() && running && state.phase.Batch? && state.phase.rest != []
      modifies this`state
      ensures Valid()
      ensures state == Taking(old(state))
    {
      InvKept(state, Check);
      state := Apply(state, Check);
      InvKept(state, Consume);
      state := Apply(state, Consume);
    }

    /** Runs one batch; `script` says what the body of each task that is run does.  The batch is taken in order, whole
        or up to and including the first task whose body stops the executor. */
    method ProcessBlocking(script: Script<Op<T>>)
      requires Valid() && Enabled(state, Take)
      modifies this
      ensures Valid() && state.phase.Outside?
      ensures old(running) ==>
        exists taken :: 0 <= taken <= |old(tasks)|
          && state.consumed == old(state.consumed) + old(tasks)[..taken]
          && HasRun(old(tasks), taken, script, running, tasks)
          && state.accepted == old(state.accepted) + tasks
          && (running ==> taken == |old(tasks)|)
      ensures !old(running) ==>
        state.consumed == old(state.consumed) && state.accepted == old(state.accepted) && !running && tasks == []
    {
      InvKept(state, Take);
      state := Apply(state, Take);
      var batch := tasks;
      tasks := [];
      var ran := 0;
      ghost var taken: nat := 0;
      assert old(tasks)[..0] == [] && old(tasks)[0..] == old(tasks);
      while |batch| > 0
        invariant Valid() && state.phase == Batch(batch)
        invariant if old(running) then Progress(old(state), taken, state, script) else state == Apply(old(state), Take)
        invariant old(running) ==> ran == Bodies(old(tasks)[..taken])
        decreases |batch|
      {
        if !running {
          state := Apply(state, Check);
          return;
        }
        ghost var now := state;
        TakeOne();
        ghost var taking := state;
        var task := batch[0];
        batch := batch[1..];
        if task.Fn? {
          RunBody(script(ran));
          ran := ran + 1;
        }
        ProgressOneMore(old(state), taken, now, taking, state, script);
        taken := taken + 1;
      }
      state := Apply(state, Finish);
    }
  }
}
