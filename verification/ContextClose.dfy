/**
 The close protocol of a context with a managed jar (src/contexts.rs): closing never waits behind a
 request, so it marks the lifetime, cancels the waiters and empties the jar only if the jar lock is
 free; whoever holds the jar is trusted to empty it on the way out.

 The jar lock is fair: unlocking hands the lock to the oldest waiter, which owns it from then on but
 runs only at its next poll.  A poll first looks at the cancellation and then at the lock; these are
 two steps here.  Deadline tests answer arbitrarily (`late`), which covers every clock.
 */
module ContextClose {
  import opened Collections

  type Actor = nat
  type Jar = seq<string>

  /** Where one call of `lock_jar` and the guard it returned are; `checked` inside a poll past the cancellation test. */
  datatype Pc =
    | Gone
    | Start
    | Polled
    | Queued(checked: bool)
    | Handed(checked: bool)
    | Locked
    | Refused
    | Guard
    | Dropping
    | Unlocked

  datatype Lock = Free | Held(holder: Actor) | Closing

  datatype Retire = Open | Marked | Cancelled | Clearing | Closed

  datatype Lifetime = Idle | Taken(owner: Actor)

  datatype State = State(
    closed: bool,
    cancelled: bool,
    retire: Retire,
    lifetime: Lifetime,
    lock: Lock,
    queue: seq<Actor>,
    jar: Jar,
    pcs: map<Actor, Pc>,
    succeeded: nat)

  const START: State := State(false, false, Open, Idle, Free, [], [], map[], 0)

  function At(s: State, a: Actor): Pc {
    if a in s.pcs then s.pcs[a] else Gone
  }

  function Go(s: State, a: Actor, pc: Pc): State {
    s.(pcs := s.pcs[a := pc])
  }

  /** Releasing the jar lock hands it to the oldest waiter. */
  function Unlock(s: State): State {
    if s.queue == [] then s.(lock := Free)
    else
      var next := s.queue[0];
      s.(lock := Held(next), queue := s.queue[1..],
         pcs := s.pcs[next := Handed(At(s, next).Queued? && At(s, next).checked)])
  }

  function Empty(s: State, really: bool): State {
    if really then s.(jar := []) else s
  }

  datatype Event =
    | Call(a: Actor)
    | PollCancel(a: Actor)
    | PollLock(a: Actor)
    | Abandon(a: Actor)
    | Touch(a: Actor, late: bool)
    | Refuse(a: Actor)
    | Write(a: Actor, content: Jar)
    | Reply(a: Actor, late: bool)
    | DropCheck(a: Actor, late: bool)
    | DropUnlock(a: Actor)
    | DropEnd(a: Actor)
    | Mark
    | Cancel
    | TryLock
    | Clear

  datatype Effect = Next(state: State) | Disabled

  /** The first half of a poll: the biased select looks at the cancellation first. */
  function PolledCancel(s: State, a: Actor): Effect {
    match At(s, a)
    case Start => Next(Go(s, a, if s.cancelled then Gone else Polled))
    case Queued(false) =>
      Next(if s.cancelled then Go(s, a, Gone).(queue := Without(s.queue, a)) else Go(s, a, Queued(true)))
    case Handed(false) => Next(if s.cancelled then Unlock(Go(s, a, Gone)) else Go(s, a, Handed(true)))
    case _ => Disabled
  }

  /** The second half: take the lock if it is free or already ours, else wait for it. */
  function PolledLock(s: State, a: Actor): Effect {
    match At(s, a)
    case Polled =>
      if s.lock == Free then Next(Go(s, a, Locked).(lock := Held(a)))
      else Next(Go(s, a, Queued(false)).(queue := s.queue + [a]))
    case Queued(true) => Next(Go(s, a, Queued(false)))
    case Handed(true) => Next(Go(s, a, Locked))
    case _ => Disabled
  }

  /** A future dropped between polls leaves the queue or passes the lock on. */
  function Abandoned(s: State, a: Actor): Effect {
    match At(s, a)
    case Start => Next(Go(s, a, Gone))
    case Queued(false) => Next(Go(s, a, Gone).(queue := Without(s.queue, a)))
    case Handed(false) => Next(Unlock(Go(s, a, Gone)))
    case _ => Disabled
  }

  function Apply(s: State, e: Event): Effect {
    match e
    case Call(a) => if At(s, a) != Gone then Disabled else Next(Go(s, a, Start))
    case PollCancel(a) => PolledCancel(s, a)
    case PollLock(a) => PolledLock(s, a)
    case Abandon(a) => Abandoned(s, a)
    case Touch(a, late) =>
      if At(s, a) != Locked || s.lifetime != Idle then Disabled
      else Next(Go(s, a, if s.closed || late then Refused else Guard))
    case Refuse(a) => if At(s, a) != Refused then Disabled else Next(Unlock(Go(s, a, Gone).(jar := [])))
    case Write(a, content) => if At(s, a) != Guard then Disabled else Next(s.(jar := content))
    case Reply(a, late) =>
      if At(s, a) != Guard || s.lifetime != Idle then Disabled
      else if s.closed || late then Next(s.(jar := []))
      else Next(s.(succeeded := s.succeeded + 1))
    case DropCheck(a, late) =>
      if At(s, a) != Guard || s.lifetime != Idle then Disabled
      else Next(Empty(Go(s, a, Dropping).(lifetime := Taken(a)), s.closed || late))
    case DropUnlock(a) => if At(s, a) != Dropping then Disabled else Next(Unlock(Go(s, a, Unlocked)))
    case DropEnd(a) => if At(s, a) != Unlocked then Disabled else Next(Go(s, a, Gone).(lifetime := Idle))
    case Mark => if s.retire != Open || s.lifetime != Idle then Disabled else Next(s.(closed := true, retire := Marked))
    case Cancel => if s.retire != Marked then Disabled else Next(s.(cancelled := true, retire := Cancelled))
    case TryLock =>
      if s.retire != Cancelled then Disabled
      else if s.lock == Free then Next(s.(lock := Closing, retire := Clearing))
      else Next(s.(retire := Closed))
    case Clear => if s.retire != Clearing then Disabled else Next(Unlock(s.(jar := [], retire := Closed)))
  }

  ghost predicate Reaches(s: State, es: seq<Event>, z: State)
    decreases |es|
  {
    if es == [] then s == z else Apply(s, es[0]).Next? && Reaches(Apply(s, es[0]).state, es[1..], z)
  }

  // ----- the invariant -----

  predicate Holds(pc: Pc) {
    pc.Handed? || pc.Locked? || pc.Refused? || pc.Guard? || pc.Dropping?
  }

  ghost predicate ActorOk(s: State, a: Actor) {
    && (Holds(At(s, a)) <==> s.lock == Held(a))
    && (At(s, a).Queued? <==> a in s.queue)
    && (At(s, a).Dropping? || At(s, a).Unlocked? <==> s.lifetime == Taken(a))
  }

  /** The point of holding the lifetime across the unlock: no guard leaves a closed context with cookies. */
  ghost predicate LeavesClean(s: State, a: Actor) {
    s.closed && At(s, a) == Dropping ==> s.jar == []
  }

  ghost predicate Shape(s: State) {
    && NoDup(s.queue)
    && (s.lock == Free ==> s.queue == [])
    && (s.lock == Closing <==> s.retire == Clearing)
    && (s.closed <==> s.retire != Open)
    && (s.cancelled <==> s.retire != Open && s.retire != Marked)
  }

  ghost predicate Inv(s: State) {
    Shape(s) && (forall a :: ActorOk(s, a)) && forall a :: LeavesClean(s, a)
  }

  /** A state whose lock is about to change hands: nobody uses the jar. */
  ghost predicate Loose(s: State, b: Actor) {
    && !Holds(At(s, b))
    && (At(s, b).Queued? <==> b in s.queue)
    && (At(s, b).Dropping? || At(s, b).Unlocked? <==> s.lifetime == Taken(b))
  }

  lemma UnlockOk(s: State)
    requires NoDup(s.queue) && forall b :: Loose(s, b)
    ensures forall b :: ActorOk(Unlock(s), b)
    ensures NoDup(Unlock(s).queue) && (Unlock(s).lock == Free ==> Unlock(s).queue == []) && Unlock(s).lock != Closing
    ensures forall b :: At(Unlock(s), b) != Dropping
  {
    var t := Unlock(s);
    forall b ensures ActorOk(t, b) && At(t, b) != Dropping {
      assert Loose(s, b);
      if s.queue != [] { assert Loose(s, s.queue[0]); }
    }
  }

  /** The state in which a step that gives the jar lock back does so. */
  function Before(s: State, e: Event): State {
    match e
    case Clear => s.(jar := [], retire := Closed)
    case Refuse(a) => Go(s, a, Gone).(jar := [])
    case DropUnlock(a) => Go(s, a, Unlocked)
    case PollCancel(a) => Go(s, a, Gone)
    case Abandon(a) => Go(s, a, Gone)
    case _ => s
  }

  predicate Releases(s: State, e: Event) {
    match e
    case Clear => s.retire == Clearing
    case Refuse(a) => At(s, a) == Refused
    case DropUnlock(a) => At(s, a) == Dropping
    case PollCancel(a) => At(s, a) == Handed(false) && s.cancelled
    case Abandon(a) => At(s, a) == Handed(false)
    case _ => false
  }

  lemma ReleaseLoose(s: State, e: Event, b: Actor)
    requires Shape(s) && ActorOk(s, b) && Releases(s, e)
    requires e.Clear? || ActorOk(s, e.a)
    ensures Loose(Before(s, e), b)
  {
  }

  lemma ReleaseInv(s: State, e: Event)
    requires Inv(s) && Releases(s, e)
    ensures Apply(s, e) == Next(Unlock(Before(s, e))) && Inv(Unlock(Before(s, e)))
  {
    var m := Before(s, e);
    if !e.Clear? { assert ActorOk(s, e.a); }
    forall b ensures Loose(m, b) {
      assert ActorOk(s, b);
      ReleaseLoose(s, e, b);
    }
    UnlockOk(m);
  }

  predicate Polling(e: Event) {
    e.Call? || e.PollCancel? || e.PollLock? || e.Abandon?
  }

  predicate ByClose(e: Event) {
    e.Mark? || e.Cancel? || e.TryLock? || e.Clear?
  }

  lemma KeepWaiting(s: State, e: Event, t: State, b: Actor)
    requires Shape(s) && ActorOk(s, b) && Apply(s, e) == Next(t)
    requires (e.Call? || e.PollLock?) && ActorOk(s, e.a)
    ensures ActorOk(t, b) && (LeavesClean(s, b) ==> LeavesClean(t, b))
  {
  }

  lemma KeepLeaving(s: State, e: Event, t: State, b: Actor)
    requires Shape(s) && ActorOk(s, b) && Apply(s, e) == Next(t) && !Releases(s, e)
    requires (e.PollCancel? || e.Abandon?) && ActorOk(s, e.a)
    ensures ActorOk(t, b) && (LeavesClean(s, b) ==> LeavesClean(t, b))
  {
  }

  lemma KeepGuarded(s: State, e: Event, t: State, b: Actor)
    requires Shape(s) && ActorOk(s, b) && Apply(s, e) == Next(t) && !Releases(s, e)
    requires !Polling(e) && (ByClose(e) || ActorOk(s, e.a))
    ensures ActorOk(t, b)
  {
  }

  lemma KeepClean(s: State, e: Event, t: State, b: Actor)
    requires Shape(s) && ActorOk(s, b) && LeavesClean(s, b) && Apply(s, e) == Next(t) && !Releases(s, e)
    requires !Polling(e) && (ByClose(e) || ActorOk(s, e.a))
    ensures LeavesClean(t, b)
  {
  }

  lemma KeepShape(s: State, e: Event, t: State)
    requires Shape(s) && Apply(s, e) == Next(t) && !Releases(s, e)
    requires ByClose(e) || ActorOk(s, e.a)
    ensures Shape(t)
  {
    match e
    case PollCancel(a) => WithoutNoDup(s.queue, a);
    case Abandon(a) => WithoutNoDup(s.queue, a);
    case PollLock(a) => if a !in s.queue { NoDupAppend(s.queue, a); }
    case _ =>
  }

  lemma StepInv(s: State, e: Event)
    requires Inv(s) && Apply(s, e).Next?
    ensures Inv(Apply(s, e).state)
  {
    var t := Apply(s, e).state;
    if Releases(s, e) {
      ReleaseInv(s, e);
    } else {
      if !ByClose(e) { assert ActorOk(s, e.a); }
      KeepShape(s, e, t);
      forall b ensures ActorOk(t, b) && LeavesClean(t, b) {
        assert ActorOk(s, b) && LeavesClean(s, b);
        if e.Call? || e.PollLock? {
          KeepWaiting(s, e, t, b);
        } else if e.PollCancel? || e.Abandon? {
          KeepLeaving(s, e, t, b);
        } else {
          KeepGuarded(s, e, t, b);
          KeepClean(s, e, t, b);
        }
      }
    }
  }

  lemma StartInv()
    ensures Inv(START)
  {
    forall a ensures ActorOk(START, a) && LeavesClean(START, a) { }
  }

  lemma {:induction false} EveryRun(s: State, es: seq<Event>, z: State)
    requires Inv(s) && Reaches(s, es, z)
    ensures Inv(z)
    decreases |es|
  {
    if es != [] {
      StepInv(s, es[0]);
      EveryRun(Apply(s, es[0]).state, es[1..], z);
    }
  }

  // ----- what a close achieves -----

  /** Cookies that nobody left alive is bound to remove. */
  ghost predicate Stranded(s: State) {
    s.jar != [] && (s.lock == Free || (s.lock.Held? && At(s, s.lock.holder).Handed?))
  }

  /** The step by which a waiter really takes the lock, and will look at the lifetime. */
  predicate Enters(s: State, e: Event) {
    e.PollLock? && (At(s, e.a) == Handed(true) || (At(s, e.a) == Polled && s.lock == Free))
  }

  ghost predicate SomeoneEnters(s: State, es: seq<Event>)
    decreases |es|
  {
    && es != []
    && Apply(s, es[0]).Next?
    && (Enters(s, es[0]) || SomeoneEnters(Apply(s, es[0]).state, es[1..]))
  }

  lemma StrandedStep(s: State, e: Event)
    requires Inv(s) && (s.retire == Clearing || s.retire == Closed) && Apply(s, e).Next?
    ensures Stranded(Apply(s, e).state) <==> Stranded(s) && !Enters(s, e)
    ensures Stranded(Apply(s, e).state) ==> Apply(s, e).state.jar == s.jar
    ensures Apply(s, e).state.retire == Clearing || Apply(s, e).state.retire == Closed
  {
    if s.lock.Held? { assert ActorOk(s, s.lock.holder) && LeavesClean(s, s.lock.holder); }
    if !ByClose(e) { assert ActorOk(s, e.a) && LeavesClean(s, e.a); }
  }

  lemma {:induction false} StrandedRun(s: State, es: seq<Event>, z: State)
    requires Inv(s) && (s.retire == Clearing || s.retire == Closed) && Reaches(s, es, z)
    ensures Inv(z) && (Stranded(z) <==> Stranded(s) && !SomeoneEnters(s, es))
    ensures Stranded(z) ==> z.jar == s.jar
    decreases |es|
  {
    if es != [] {
      StepInv(s, es[0]);
      StrandedStep(s, es[0]);
      StrandedRun(Apply(s, es[0]).state, es[1..], z);
    }
  }

  /**
   The close protocol, exactly.  Let `s` be the reachable state in which the close tries the jar
   lock, and `z` any later state in which nobody has the lock.  Then the jar is empty in `z`, unless
   in `s` a non-empty jar had been handed to a waiter that was not running, and no waiter since was
   past its cancellation test in time to take the lock; and then every cookie is still there.
   */
  lemma CloseClears(before: seq<Event>, s: State, after: seq<Event>, z: State)
    requires Reaches(START, before, s) && s.retire == Cancelled
    requires after != [] && after[0] == TryLock && Reaches(s, after, z) && z.lock == Free
    ensures z.jar != [] <==>
            s.jar != [] && s.lock.Held? && At(s, s.lock.holder).Handed?
                && !SomeoneEnters(Apply(s, TryLock).state, after[1..])
    ensures z.jar != [] ==> z.jar == s.jar
  {
    StartInv();
    EveryRun(START, before, s);
    StepInv(s, TryLock);
    StrandedRun(Apply(s, TryLock).state, after[1..], z);
  }

  /** Someone past the cancellation test but not yet at the lock. */
  predicate MidPoll(pc: Pc) {
    pc == Polled || pc == Queued(true) || pc == Handed(true)
  }

  lemma UnlockKeepsOutside(s: State, a: Actor)
    requires !MidPoll(At(s, a)) && (s.queue != [] ==> !MidPoll(At(s, s.queue[0])))
    ensures !MidPoll(At(Unlock(s), a))
  {
  }

  lemma NobodyEntersStep(s: State, e: Event, a: Actor)
    requires s.cancelled && (forall b :: !MidPoll(At(s, b))) && Apply(s, e).Next?
    ensures !MidPoll(At(Apply(s, e).state, a)) && Apply(s, e).state.cancelled
  {
    assert !MidPoll(At(s, a));
    if Releases(s, e) {
      var m := Before(s, e);
      if s.queue != [] { assert !MidPoll(At(s, s.queue[0])); }
      UnlockKeepsOutside(m, a);
    } else if !ByClose(e) {
      assert !MidPoll(At(s, e.a));
    }
  }

  /** If nobody was in the middle of a poll when the close tried the lock, nobody ever enters: the leak is for good. */
  lemma {:induction false} NobodyEnters(s: State, es: seq<Event>, z: State)
    requires s.cancelled && (forall a :: !MidPoll(At(s, a))) && Reaches(s, es, z)
    ensures !SomeoneEnters(s, es)
    decreases |es|
  {
    if es != [] {
      var t := Apply(s, es[0]).state;
      forall a ensures !MidPoll(At(t, a)) { NobodyEntersStep(s, es[0], a); }
      NobodyEntersStep(s, es[0], 0);
      NobodyEnters(t, es[1..], z);
    }
  }

  lemma ClosedStep(s: State, e: Event, a: Actor)
    requires s.closed && Apply(s, e).Next?
    ensures Apply(s, e).state.closed && Apply(s, e).state.succeeded == s.succeeded
    ensures At(Apply(s, e).state, a) == Guard ==> At(s, a) == Guard
  {
  }

  /** Once the lifetime is marked, no cookie command succeeds and nobody obtains a guard, in any continuation. */
  lemma {:induction false} NothingSucceedsAfterClose(s: State, es: seq<Event>, z: State, a: Actor)
    requires s.closed && Reaches(s, es, z)
    ensures z.closed && z.succeeded == s.succeeded
    ensures At(z, a) == Guard ==> At(s, a) == Guard
    decreases |es|
  {
    if es != [] {
      ClosedStep(s, es[0], a);
      NothingSucceedsAfterClose(Apply(s, es[0]).state, es[1..], z, a);
    }
  }

  /**
   No close ever waits for the jar: whatever the others are doing, its next step, or the end of a guard
   drop, is enabled.
   */
  lemma CloseNeverWaits(es: seq<Event>, s: State)
    requires Reaches(START, es, s) && s.retire != Closed
    ensures Apply(s, Mark).Next? || Apply(s, Cancel).Next? || Apply(s, TryLock).Next? || Apply(s, Clear).Next?
         || (s.lifetime.Taken? && Apply(s, DropUnlock(s.lifetime.owner)).Next?)
         || (s.lifetime.Taken? && Apply(s, DropEnd(s.lifetime.owner)).Next?)
  {
    StartInv();
    EveryRun(START, es, s);
    if s.lifetime.Taken? { assert ActorOk(s, s.lifetime.owner); }
  }

  /**
   A look at a lifetime that is closed or over leaves no cookies behind: a waiter is refused and empties
   the jar before it passes the lock on, a command fails, and a guard is dropped with an empty jar.
   Otherwise the waiter gets its guard, the command succeeds and the cookies stay.
   */
  lemma LooksDecide(s: State, a: Actor, late: bool)
    ensures Apply(s, Touch(a, late)).Next? ==>
              At(Apply(s, Touch(a, late)).state, a) == if s.closed || late then Refused else Guard
    ensures Apply(s, Refuse(a)).Next? ==> Apply(s, Refuse(a)).state.jar == []
    ensures Apply(s, Reply(a, late)).Next? ==>
              var t := Apply(s, Reply(a, late)).state;
              if s.closed || late then t.jar == [] && t.succeeded == s.succeeded
              else t.jar == s.jar && t.succeeded == s.succeeded + 1
    ensures Apply(s, DropCheck(a, late)).Next? ==>
              Apply(s, DropCheck(a, late)).state.jar == if s.closed || late then [] else s.jar
  {
  }

  // ----- the hand-off that keeps cookies alive -----

  lemma {:induction false} Extend(s: State, es: seq<Event>, m: State, e: Event)
    requires Reaches(s, es, m) && Apply(m, e).Next?
    ensures Reaches(s, es + [e], Apply(m, e).state)
    decreases |es|
  {
    if es != [] {
      Extend(Apply(s, es[0]).state, es[1..], m, e);
      assert (es + [e])[1..] == es[1..] + [e];
    } else {
      assert ([] + [e])[1..] == [];
    }
  }

  /** One request writes a cookie while another waits for the jar. */
  function Two(p: Pc, q: Pc): map<Actor, Pc> {
    map[0 := p, 1 := q]
  }

  lemma Then(es: seq<Event>, m: State, e: Event) returns (fs: seq<Event>, z: State)
    requires Reaches(START, es, m) && Apply(m, e).Next?
    ensures Reaches(START, fs, z) && Apply(m, e) == Next(z)
  {
    Extend(START, es, m, e);
    fs, z := es + [e], Apply(m, e).state;
  }

  lemma FirstGuard() returns (es: seq<Event>, m: State)
    ensures Reaches(START, es, m)
    ensures m == State(false, false, Open, Idle, Held(0), [], [], map[0 := Guard], 0)
  {
    es, m := Then([], START, Call(0));
    es, m := Then(es, m, PollCancel(0));
    es, m := Then(es, m, PollLock(0));
    es, m := Then(es, m, Touch(0, false));
    assert m.pcs == map[0 := Guard];
  }

  lemma SecondWaits() returns (es: seq<Event>, m: State)
    ensures Reaches(START, es, m)
    ensures m == State(false, false, Open, Idle, Held(0), [1], [], Two(Guard, Queued(false)), 0)
  {
    es, m := FirstGuard();
    es, m := Then(es, m, Call(1));
    es, m := Then(es, m, PollCancel(1));
    es, m := Then(es, m, PollLock(1));
    assert m.pcs == Two(Guard, Queued(false));
  }

  lemma FirstWrites() returns (es: seq<Event>, m: State)
    ensures Reaches(START, es, m)
    ensures m == State(false, false, Open, Taken(0), Held(0), [1], ["session"], Two(Dropping, Queued(false)), 1)
  {
    es, m := SecondWaits();
    es, m := Then(es, m, Write(0, ["session"]));
    es, m := Then(es, m, Reply(0, false));
    es, m := Then(es, m, DropCheck(0, false));
    assert m.pcs == Two(Dropping, Queued(false));
  }

  lemma HandsOver() returns (es: seq<Event>, m: State)
    ensures Reaches(START, es, m)
    ensures m == State(false, false, Open, Idle, Held(1), [], ["session"], Two(Gone, Handed(false)), 1)
  {
    es, m := FirstWrites();
    es, m := Then(es, m, DropUnlock(0));
    assert m.pcs == Two(Unlocked, Handed(false));
    es, m := Then(es, m, DropEnd(0));
    assert m.pcs == Two(Gone, Handed(false));
  }

  /**
   A run in which a close has returned, no guard is alive, nobody has the lock, and the jar still
   holds a cookie: a request finishes, its lock goes to a waiter, and the close comes before that
   waiter is polled.
   */
  lemma HandOffKeepsCookies() returns (es: seq<Event>, z: State)
    ensures Reaches(START, es, z)
    ensures z.retire == Closed && z.lock == Free && z.jar == ["session"] && forall a :: At(z, a) == Gone
  {
    es, z := HandsOver();
    es, z := Then(es, z, Mark);
    es, z := Then(es, z, Cancel);
    es, z := Then(es, z, TryLock);
    es, z := Then(es, z, PollCancel(1));
    assert z.pcs == Two(Gone, Gone);
  }
}
