/**
 The blocking bridge between the calling thread and its worker
 (packages/typescript/src/sync/index.ts, worker.ts): a reply port, a stop flag and a generation
 counter the parent waits on. Every shared-memory access is one step of either thread.
 */
module SyncBridge {

  /** The shared counter is an Int32 cell: additions wrap. */
  const WRAP: nat := 0x1_0000_0000

  /** The worker's accesses: post a reply, set the stop flag, bump the generation, wake the parent. */
  datatype Op = Post | Store | Add | Notify

  const REPLY: seq<Op> := [Post, Add, Notify]
  const STOP: seq<Op> := [Store, Add, Notify]

  /**
   The parent inside `#receive`: at the loop head, after loading the generation, after an empty
   receive, after the stop check, blocked in `Atomics.wait`; or outside, or released for good.
   `seen` is the number of additions when the generation was loaded.
   */
  datatype Parent = Idle | Head | Loaded(seen: nat) | Checked(seen: nat) | Ready(seen: nat) | Blocked(seen: nat) | Gone

  /**
   `adds`, `posted` and `received` count accesses since the start; `calls` the commands sent,
   `inbox` those not yet taken; `todo` is what the worker has left of the routine it is in.
   */
  datatype Bridge = Bridge(
    adds: nat, stop: bool, posted: nat, received: nat,
    calls: nat, inbox: nat, todo: seq<Op>, up: bool, stopped: bool, handlers: nat,
    parent: Parent)

  /** The constructor blocks in `#receive(0, ...)` until the worker reports. */
  const START: Bridge := Bridge(0, false, 0, 0, 0, 0, [], false, false, 0, Head)

  function Queue(b: Bridge): nat {
    if b.posted >= b.received then b.posted - b.received else 0
  }

  datatype Event =
    | WorkerUp(ok: bool)
    | WorkerReply(closing: bool)
    | WorkerFatal(replies: bool)
    | WorkerStep
    | Call
    | Load
    | Receive(fails: bool)
    | Check
    | Wait
    | Timeout
    | Handler

  predicate Enabled(b: Bridge, e: Event) {
    match e
    case WorkerUp(_) => !b.up && !b.stopped && b.todo == []
    case WorkerReply(_) => b.up && b.todo == [] && b.inbox > 0
    case WorkerFatal(_) => b.up && !b.stopped && b.todo == []
    case WorkerStep => b.todo != []
    case Call => b.parent.Idle?
    case Load => b.parent.Head?
    case Receive(_) => b.parent.Loaded?
    case Check => b.parent.Checked?
    case Wait => b.parent.Ready?
    case Timeout => b.parent.Ready? || b.parent.Blocked?
    case Handler => (b.parent.Idle? || b.parent.Gone?) && b.handlers < 2
  }

  function Apply(b: Bridge, e: Event): Bridge
    requires Enabled(b, e)
  {
    match e
    case WorkerUp(ok) =>
      if ok then b.(up := true, todo := REPLY)
      else b.(up := true, stopped := true, todo := REPLY + STOP)
    case WorkerReply(closing) =>
      // A command in flight is answered even after a fatal error stopped the worker.
      if closing && !b.stopped then b.(inbox := b.inbox - 1, stopped := true, todo := REPLY + STOP)
      else b.(inbox := b.inbox - 1, todo := REPLY)
    case WorkerFatal(replies) => b.(stopped := true, todo := if replies then REPLY + STOP else STOP)
    case WorkerStep => (
      var next := b.(todo := b.todo[1..]);
      match b.todo[0]
      case Post => next.(posted := b.posted + 1)
      case Store => next.(stop := true)
      case Add => next.(adds := b.adds + 1)
      case Notify => if b.parent.Blocked? then next.(parent := Head) else next)
    case Call => b.(calls := b.calls + 1, inbox := b.inbox + 1, parent := Head)
    case Load => b.(parent := Loaded(b.adds))
    case Receive(fails) =>
      if Queue(b) > 0 then b.(received := b.received + 1, parent := if fails then Gone else Idle)
      else b.(parent := Checked(b.parent.seen))
    case Check => b.(parent := if b.stop then Gone else Ready(b.parent.seen))
    case Wait =>
      if b.adds % WRAP == b.parent.seen % WRAP then b.(parent := Blocked(b.parent.seen)) else b.(parent := Head)
    case Timeout => b.(parent := Gone)
    case Handler => b.(stop := true, adds := b.adds + 1, handlers := b.handlers + 1)
  }

  ghost predicate Reaches(b: Bridge, es: seq<Event>, z: Bridge)
    decreases |es|
  {
    if es == [] then b == z else Enabled(b, es[0]) && Reaches(Apply(b, es[0]), es[1..], z)
  }

  // ----- invariants -----

  /** Every post and every store is followed by its add and notify. */
  predicate Paired(todo: seq<Op>) {
    && |todo| <= 6
    && (forall i :: 0 <= i < |todo| && (todo[i].Post? || todo[i].Store?) ==>
                      i + 2 < |todo| && todo[i + 1].Add? && todo[i + 2].Notify?)
    && (forall i :: 0 <= i < |todo| && todo[i].Add? ==> i + 1 < |todo| && todo[i + 1].Notify?)
  }

  function Num(todo: seq<Op>, op: Op): nat {
    if todo == [] then 0 else (if todo[0] == op then 1 else 0) + Num(todo[1..], op)
  }

  /** How many calls the parent has had answered: all of them, or all but the one it is in. */
  predicate Turns(b: Bridge) {
    match b.parent
    case Idle => b.received == b.calls + 1
    case Gone => true
    case _ => b.received == b.calls
  }

  /**
   The counter cannot run away from a loaded generation: at most one reply per command and for the
   start, one more for a fatal error, one stop and two parent handlers ever bump it.
   */
  ghost predicate Bounded(b: Bridge) {
    && b.received <= b.posted
    && b.inbox <= b.calls
    && (b.up ==> b.posted + Num(b.todo, Post) <= 1 + (b.calls - b.inbox) + (if b.stopped then 1 else 0))
    && (!b.up ==> b.posted == 0 && b.todo == [] && b.adds == b.handlers)
    && b.posted + Num(b.todo, Post) <= b.adds + Num(b.todo, Add)
    && b.adds + Num(b.todo, Add) <= b.posted + Num(b.todo, Post) + (if b.stopped then 1 else 0) + b.handlers
    && Num(b.todo, Add) <= 2
    && b.handlers <= 2
  }

  ghost predicate Near(b: Bridge) {
    b.parent.Loaded? || b.parent.Checked? || b.parent.Ready? || b.parent.Blocked? ==>
      b.parent.seen <= b.adds && b.calls <= b.parent.seen + 2
  }

  /**
   What the parent may rely on at each point of its loop: anything it did not see is announced by
   an addition after its load, made or still to come.
   */
  ghost predicate Announced(b: Bridge) {
    match b.parent
    case Checked(seen) => Queue(b) > 0 ==> b.adds > seen || Add in b.todo
    case Ready(seen) => Queue(b) > 0 || b.stop ==> b.adds > seen || Add in b.todo
    case Blocked(seen) =>
      (Queue(b) > 0 || b.stop ==> b.adds > seen || Add in b.todo) && (b.adds > seen ==> Notify in b.todo)
    case _ => true
  }

  ghost predicate Inv(b: Bridge) {
    Paired(b.todo) && Turns(b) && Bounded(b) && Near(b) && Announced(b)
  }

  lemma NumStep(todo: seq<Op>, op: Op)
    requires todo != []
    ensures Num(todo, op) == (if todo[0] == op then 1 else 0) + Num(todo[1..], op)
    ensures op in todo <==> todo[0] == op || op in todo[1..]
  {
    assert todo == [todo[0]] + todo[1..];
  }

  lemma {:induction false} NumAppend(a: seq<Op>, b: seq<Op>, op: Op)
    ensures Num(a + b, op) == Num(a, op) + Num(b, op)
  {
    if a == [] {
      assert a + b == b;
    } else {
      NumAppend(a[1..], b, op);
      assert (a + b)[1..] == a[1..] + b;
    }
  }

  /** The worker's routines are paired, and how often each posts and adds. */
  lemma Routine(todo: seq<Op>)
    requires todo == REPLY || todo == STOP || todo == REPLY + STOP
    ensures Paired(todo) && Notify in todo && Add in todo
    ensures Num(todo, Post) == (if todo == STOP then 0 else 1)
    ensures Num(todo, Add) == (if todo == REPLY + STOP then 2 else 1)
  {
    NumAppend(REPLY, STOP, Post);
    NumAppend(REPLY, STOP, Add);
    assert todo[1] == Add && todo[2] == Notify;
    assert REPLY[1..] == [Add, Notify] && STOP[1..] == [Add, Notify] && [Add, Notify][1..] == [Notify]
        && [Notify][1..] == [];
    assert Num([Notify], Post) == 0 && Num([Notify], Add) == 0;
    assert Num([Add, Notify], Post) == 0 && Num([Add, Notify], Add) == 1;
  }

  lemma PairedTail(todo: seq<Op>)
    requires Paired(todo) && todo != []
    ensures Paired(todo[1..])
    ensures todo[0].Add? ==> Notify in todo[1..]
    ensures todo[0].Post? || todo[0].Store? ==> Add in todo[1..]
  {
    var tail := todo[1..];
    assert forall i :: 0 <= i < |tail| ==> tail[i] == todo[i + 1];
    if todo[0].Add? { assert tail[0] == Notify; }
    if todo[0].Post? || todo[0].Store? { assert tail[0] == Add; }
  }

  lemma StepBounded(b: Bridge)
    requires Bounded(b) && b.todo != []
    ensures Bounded(Apply(b, WorkerStep))
  {
    NumStep(b.todo, Post);
    NumStep(b.todo, Add);
  }

  lemma StepAnnounced(b: Bridge)
    requires Paired(b.todo) && Announced(b) && Bounded(b) && Near(b) && b.todo != []
    ensures Announced(Apply(b, WorkerStep))
  {
    PairedTail(b.todo);
    NumStep(b.todo, Add);
    NumStep(b.todo, Notify);
  }

  lemma WorkerStepInv(b: Bridge)
    requires Inv(b) && b.todo != []
    ensures Inv(Apply(b, WorkerStep))
  {
    PairedTail(b.todo);
    StepBounded(b);
    StepAnnounced(b);
  }

  lemma WorkerStartInv(b: Bridge, e: Event)
    requires Inv(b) && Enabled(b, e) && (e.WorkerUp? || e.WorkerReply? || e.WorkerFatal?)
    ensures Inv(Apply(b, e))
  {
    var z := Apply(b, e);
    Routine(z.todo);
    assert Bounded(z) by {
      assert Num(b.todo, Post) == 0 && Num(b.todo, Add) == 0;
    }
    assert Announced(z);
  }

  lemma ParentInv(b: Bridge, e: Event)
    requires Inv(b) && Enabled(b, e) && (e.Call? || e.Load? || e.Receive? || e.Check? || e.Timeout? || e.Handler?)
    ensures Inv(Apply(b, e))
  {
  }

  /** The parent blocks only on the generation it loaded: wrap-around cannot fake equality. */
  lemma WaitInv(b: Bridge)
    requires Inv(b) && b.parent.Ready?
    ensures Inv(Apply(b, Wait))
    ensures Apply(b, Wait).parent.Blocked? ==> b.adds == b.parent.seen
  {
    assert b.adds <= b.calls + 5;
    assert b.adds - b.parent.seen <= 7;
    if b.adds % WRAP == b.parent.seen % WRAP { SmallWrap(b.parent.seen, b.adds); }
  }

  lemma SmallWrap(x: nat, y: nat)
    requires x <= y < x + WRAP && x % WRAP == y % WRAP
    ensures x == y
  {
  }

  lemma StepInv(b: Bridge, e: Event)
    requires Inv(b) && Enabled(b, e)
    ensures Inv(Apply(b, e))
  {
    match e
    case WorkerStep => WorkerStepInv(b);
    case Wait => WaitInv(b);
    case WorkerUp(_) => WorkerStartInv(b, e);
    case WorkerReply(_) => WorkerStartInv(b, e);
    case WorkerFatal(_) => WorkerStartInv(b, e);
    case _ => ParentInv(b, e);
  }

  lemma {:induction false} EveryRun(b: Bridge, es: seq<Event>, z: Bridge)
    requires Inv(b) && Reaches(b, es, z)
    ensures Inv(z)
    decreases |es|
  {
    if es != [] {
      StepInv(b, es[0]);
      EveryRun(Apply(b, es[0]), es[1..], z);
    }
  }

  /**
   No lost wake-up, in every interleaving: while the parent is blocked and a reply is in the port or
   the stop flag is set, the worker still has the matching notify ahead of it.
   */
  lemma NeverStuck(es: seq<Event>, z: Bridge)
    requires Reaches(START, es, z) && z.parent.Blocked? && (Queue(z) > 0 || z.stop)
    ensures Notify in z.todo
  {
    EveryRun(START, es, z);
    if Add in z.todo {
      var i :| 0 <= i < |z.todo| && z.todo[i] == Add;
      assert z.todo[i + 1] == Notify;
    }
  }

  /**
   And that notify does wake it: running the worker's routine to its end leaves no blocked parent behind
   a visible reply.
   */
  lemma {:induction false} WorkerWakesParent(b: Bridge) returns (steps: seq<Event>, z: Bridge)
    requires Inv(b) && b.parent.Blocked? && (Queue(b) > 0 || b.stop)
    ensures Reaches(b, steps, z) && z.parent.Head? && Inv(z)
    decreases |b.todo|
  {
    if Add in b.todo {
      var i :| 0 <= i < |b.todo| && b.todo[i] == Add;
      assert b.todo[i + 1] == Notify;
    }
    var next := Apply(b, WorkerStep);
    StepInv(b, WorkerStep);
    if b.todo[0].Notify? {
      steps, z := [WorkerStep], next;
      assert steps[1..] == [] && Reaches(next, [], z);
    } else {
      var more;
      more, z := WorkerWakesParent(next);
      steps := [WorkerStep] + more;
      assert steps[1..] == more;
    }
  }
}
