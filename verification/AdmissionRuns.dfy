/**
 Every interleaving of the service's admission protocol (src/admission.rs): tickets enter, arm a
 notification, try to start, sleep, are dropped, and each actor that changed the table notifies
 the waiters only after it has released the lock.
 */
module AdmissionRuns {
  import opened Collections
  import opened ServiceAdmission

  /**
   Where the owner of a ticket stands: not polled yet, registered with `Notify` and about to try,
   suspended on the notification, or running. `signalled` records a notify since registration.
   */
  datatype Phase = Idle | Armed(signalled: bool) | Asleep(signalled: bool) | Running

  datatype Live = Live(key: Key, id: nat, phase: Phase)

  /** `unsent` actors have unlocked the table and not yet called `notify_waiters`. */
  datatype System = System(state: State, live: map<nat, Live>, unsent: nat)

  datatype Event = Enter(h: nat, key: Key) | Arm(h: nat) | Try(h: nat) | Drop(h: nat) | Notify

  /** `Panic` stands for a failed unwrap, a missing index or a subtraction below zero. */
  datatype Effect = Next(system: System) | Disabled | Panic

  const START: System := System(EMPTY, map[], 0)

  predicate Waits(t: Live) { !t.phase.Running? }

  predicate Runs(t: Live) { t.phase.Running? }

  function RunsIn(k: Key): Live -> bool { (t: Live) => t.key == k && Runs(t) }

  function WaitsIn(k: Key): Live -> bool { (t: Live) => t.key == k && Waits(t) }

  function HoldOf(t: Live): Hold {
    if Runs(t) then Slot else Place(t.id)
  }

  function Signalled(t: Live): Live {
    match t.phase
    case Armed(_) => t.(phase := Armed(true))
    case Asleep(_) => t.(phase := Asleep(true))
    case _ => t
  }

  function Apply(lim: Limits, y: System, e: Event): Effect {
    match e
    case Enter(h, k) =>
      if h in y.live then Disabled
      else if !Indexed(y.state) then Panic
      else (
        match Arrive(lim, y.state, k)
        case Started(s) => Next(y.(state := s, live := y.live[h := Live(k, s.next, Running)]))
        case Enqueued(s, id) => Next(y.(state := s, live := y.live[h := Live(k, id, Idle)]))
        case Busy => Next(y))
    case Arm(h) =>
      if h in y.live && (y.live[h].phase.Idle? || y.live[h].phase == Asleep(true)) then
        Next(y.(live := y.live[h := y.live[h].(phase := Armed(false))]))
      else Disabled
    case Try(h) =>
      if h !in y.live || !y.live[h].phase.Armed? then Disabled
      else
        var t := y.live[h];
        if !Startable(lim, y.state, t.key, t.id) then
          Next(y.(live := y.live[h := t.(phase := Asleep(t.phase.signalled))]))
        else if y.state.queued == 0 || t.key !in y.state.partitions then Panic
        else Next(System(Start(lim, y.state, t.key, t.id), y.live[h := t.(phase := Running)], y.unsent + 1))
    case Drop(h) =>
      if h !in y.live then Disabled
      else if !Holds(y.state, y.live[h].key, HoldOf(y.live[h])) then Panic
      else Next(System(Release(y.state, y.live[h].key, HoldOf(y.live[h])), y.live - {h}, y.unsent + 1))
    case Notify =>
      if y.unsent == 0 then Disabled
      else Next(y.(unsent := y.unsent - 1, live := map h | h in y.live :: Signalled(y.live[h])))
  }

  /** `z` is reached from `y` by the events `es`, none of which was disabled or panicked. */
  ghost predicate Reaches(lim: Limits, y: System, es: seq<Event>, z: System)
    decreases |es|
  {
    if es == [] then y == z
    else Apply(lim, y, es[0]).Next? && Reaches(lim, Apply(lim, y, es[0]).system, es[1..], z)
  }

  // ----- conservation -----

  ghost predicate Owned(y: System) {
    && (forall h :: h in y.live ==> Queued(y, h))
    && (forall g, h :: Distinct(y, g, h))
  }

  /** A waiting ticket's id stands in its partition's queue. */
  ghost predicate Queued(y: System, h: nat)
    requires h in y.live
  {
    Waits(y.live[h]) ==> y.live[h].id in Part(y.state, y.live[h].key).waiting
  }

  ghost predicate Distinct(y: System, g: nat, h: nat) {
    g in y.live && h in y.live && g != h && Waits(y.live[g]) && Waits(y.live[h])
    ==> y.live[g].id != y.live[h].id
  }

  /** The table's counters are the numbers of live tickets. */
  ghost predicate Counted(y: System) {
    && y.state.active == Count(y.live, Runs)
    && y.state.queued == Count(y.live, Waits)
    && forall k :: CountedIn(y, k)
  }

  ghost predicate CountedIn(y: System, k: Key) {
    && Part(y.state, k).active == Count(y.live, RunsIn(k))
    && |Part(y.state, k).waiting| == Count(y.live, WaitsIn(k))
  }

  /** No lost wake-up: an unsignalled sleeper is startable only while a notify is still to come. */
  ghost predicate Awake(lim: Limits, y: System) {
    forall h :: h in y.live ==> AwakeAt(lim, y, h)
  }

  ghost predicate AwakeAt(lim: Limits, y: System, h: nat)
    requires h in y.live
  {
    y.live[h].phase == Asleep(false) && Startable(lim, y.state, y.live[h].key, y.live[h].id) ==> y.unsent > 0
  }

  ghost predicate Inv(lim: Limits, y: System) {
    Valid(lim, y.state) && Owned(y) && Counted(y) && Awake(lim, y)
  }

  ghost predicate Positive(lim: Limits) {
    lim.active > 0 && lim.partitionActive > 0 && lim.queue > 0 && lim.partitionQueue > 0
  }

  lemma StartInv(lim: Limits)
    ensures Inv(lim, START)
  {
    assert Actives(EMPTY.partitions) == map[] && Lengths(EMPTY.partitions) == map[];
    forall p: Live -> bool ensures Count(START.live, p) == 0 {
      assert Chosen(START.live, p) == {};
    }
    assert forall k :: CountedIn(START, k);
  }

  /** Entering: the new ticket is counted, has a fresh id, and makes nobody startable. */
  lemma EnterOwned(lim: Limits, y: System, h: nat, k: Key)
    requires Valid(lim, y.state) && Owned(y) && h !in y.live && Apply(lim, y, Enter(h, k)).Next?
    ensures Owned(Apply(lim, y, Enter(h, k)).system)
  {
    var z := Apply(lim, y, Enter(h, k)).system;
    forall g | g in z.live ensures Queued(z, g) {
      if g != h { assert Queued(y, g); }
    }
    forall f, g ensures Distinct(z, f, g) {
      assert Distinct(y, f, g);
      if f in y.live { assert Queued(y, f) && PartitionOk(lim, y.state, y.live[f].key); }
      if g in y.live { assert Queued(y, g) && PartitionOk(lim, y.state, y.live[g].key); }
    }
  }

  lemma EnterCounted(lim: Limits, y: System, h: nat, k: Key)
    requires Counted(y) && h !in y.live && Apply(lim, y, Enter(h, k)).Next?
    ensures Counted(Apply(lim, y, Enter(h, k)).system)
  {
    var z := Apply(lim, y, Enter(h, k)).system;
    if !Arrive(lim, y.state, k).Busy? {
      CountPut(y.live, Runs, h, z.live[h]);
      CountPut(y.live, Waits, h, z.live[h]);
      forall l ensures CountedIn(z, l) {
        assert CountedIn(y, l);
        CountPut(y.live, RunsIn(l), h, z.live[h]);
        CountPut(y.live, WaitsIn(l), h, z.live[h]);
      }
    }
  }

  lemma EnterInv(lim: Limits, y: System, h: nat, k: Key)
    requires Inv(lim, y) && Positive(lim) && h !in y.live
    ensures Apply(lim, y, Enter(h, k)).Next? && Inv(lim, Apply(lim, y, Enter(h, k)).system)
  {
    ValidIndexed(lim, y.state);
    ArriveValid(lim, y.state, k);
    var z := Apply(lim, y, Enter(h, k)).system;
    EnterOwned(lim, y, h, k);
    EnterCounted(lim, y, h, k);
    forall g | g in z.live ensures AwakeAt(lim, z, g) {
      if g in y.live && !Arrive(lim, y.state, k).Busy? && Startable(lim, z.state, z.live[g].key, z.live[g].id) {
        EnterStartsNobody(lim, y.state, k, z.live[g].key, z.live[g].id);
      }
      if g in y.live { assert AwakeAt(lim, y, g); }
    }
  }

  /** A change of phase alone keeps ownership and every count. */
  lemma RephaseKeeps(y: System, h: nat, phase: Phase)
    requires Owned(y) && Counted(y) && h in y.live && !phase.Running? && Waits(y.live[h])
    ensures var z := y.(live := y.live[h := y.live[h].(phase := phase)]);
            Owned(z) && Counted(z)
  {
    var t := y.live[h].(phase := phase);
    var z := y.(live := y.live[h := t]);
    CountPut(y.live, Runs, h, t);
    CountPut(y.live, Waits, h, t);
    forall k ensures CountedIn(z, k) {
      assert CountedIn(y, k);
      CountPut(y.live, RunsIn(k), h, t);
      CountPut(y.live, WaitsIn(k), h, t);
    }
    forall g | g in z.live ensures Queued(z, g) { assert Queued(y, g); }
    forall f, g ensures Distinct(z, f, g) { assert Distinct(y, f, g); }
  }

  lemma ArmInv(lim: Limits, y: System, h: nat)
    requires Inv(lim, y) && Apply(lim, y, Arm(h)).Next?
    ensures Inv(lim, Apply(lim, y, Arm(h)).system)
  {
    RephaseKeeps(y, h, Armed(false));
    var z := Apply(lim, y, Arm(h)).system;
    forall g | g in z.live ensures AwakeAt(lim, z, g) { assert AwakeAt(lim, y, g); }
  }

  lemma StartOwned(lim: Limits, y: System, h: nat)
    requires Owned(y) && h in y.live && Startable(lim, y.state, y.live[h].key, y.live[h].id)
    requires Valid(lim, y.state) && y.state.queued > 0 && Waits(y.live[h])
    ensures Owned(System(Start(lim, y.state, y.live[h].key, y.live[h].id),
                         y.live[h := y.live[h].(phase := Running)], y.unsent + 1))
  {
    var t := y.live[h];
    var z := System(Start(lim, y.state, t.key, t.id), y.live[h := t.(phase := Running)], y.unsent + 1);
    var w := Part(y.state, t.key).waiting;
    assert w == [t.id] + w[1..];
    forall g | g in z.live ensures Queued(z, g) {
      assert Queued(y, g) && Distinct(y, g, h);
    }
    forall f, g ensures Distinct(z, f, g) { assert Distinct(y, f, g); }
  }

  lemma StartCounted(lim: Limits, y: System, h: nat)
    requires Counted(y) && h in y.live && Startable(lim, y.state, y.live[h].key, y.live[h].id)
    requires y.state.queued > 0 && Waits(y.live[h])
    ensures Counted(System(Start(lim, y.state, y.live[h].key, y.live[h].id),
                           y.live[h := y.live[h].(phase := Running)], y.unsent + 1))
  {
    var t := y.live[h];
    var z := System(Start(lim, y.state, t.key, t.id), y.live[h := t.(phase := Running)], y.unsent + 1);
    CountPut(y.live, Runs, h, z.live[h]);
    CountPut(y.live, Waits, h, z.live[h]);
    forall k ensures CountedIn(z, k) {
      assert CountedIn(y, k);
      CountPut(y.live, RunsIn(k), h, z.live[h]);
      CountPut(y.live, WaitsIn(k), h, z.live[h]);
    }
  }

  /** A try never panics: a startable ticket is really at the head of a queue in the table. */
  lemma TryInv(lim: Limits, y: System, h: nat)
    requires Inv(lim, y) && h in y.live && y.live[h].phase.Armed?
    ensures Apply(lim, y, Try(h)).Next? && Inv(lim, Apply(lim, y, Try(h)).system)
  {
    var t := y.live[h];
    if Startable(lim, y.state, t.key, t.id) {
      StartableQueued(lim, y.state, t.key, t.id);
      StartValid(lim, y.state, t.key, t.id);
      StartOwned(lim, y, h);
      StartCounted(lim, y, h);
    } else {
      RephaseKeeps(y, h, Asleep(t.phase.signalled));
      var z := Apply(lim, y, Try(h)).system;
      forall g | g in z.live ensures AwakeAt(lim, z, g) { assert AwakeAt(lim, y, g); }
    }
  }

  /** Every live ticket's slot or queue entry is still in the table when it is dropped. */
  lemma LiveHolds(lim: Limits, y: System, h: nat)
    requires Inv(lim, y) && h in y.live
    ensures Holds(y.state, y.live[h].key, HoldOf(y.live[h]))
  {
    var t := y.live[h];
    assert CountedIn(y, t.key) && Queued(y, h);
    if Runs(t) {
      assert h in Chosen(y.live, RunsIn(t.key)) && h in Chosen(y.live, Runs);
    } else {
      assert h in Chosen(y.live, WaitsIn(t.key)) && h in Chosen(y.live, Waits);
    }
  }

  lemma DropOwned(lim: Limits, y: System, h: nat)
    requires Owned(y) && h in y.live && Holds(y.state, y.live[h].key, HoldOf(y.live[h]))
    ensures Owned(System(Release(y.state, y.live[h].key, HoldOf(y.live[h])), y.live - {h}, y.unsent + 1))
  {
    var z := System(Release(y.state, y.live[h].key, HoldOf(y.live[h])), y.live - {h}, y.unsent + 1);
    forall g | g in z.live ensures Queued(z, g) {
      assert Queued(y, g) && Distinct(y, g, h);
    }
    forall f, g ensures Distinct(z, f, g) { assert Distinct(y, f, g); }
  }

  lemma DropCounted(lim: Limits, y: System, h: nat)
    requires Valid(lim, y.state) && Counted(y) && h in y.live && Holds(y.state, y.live[h].key, HoldOf(y.live[h]))
    ensures Counted(System(Release(y.state, y.live[h].key, HoldOf(y.live[h])), y.live - {h}, y.unsent + 1))
  {
    var t := y.live[h];
    var z := System(Release(y.state, t.key, HoldOf(t)), y.live - {h}, y.unsent + 1);
    assert PartitionOk(lim, y.state, t.key);
    if Waits(t) { WithoutNoDup(Part(y.state, t.key).waiting, t.id); }
    CountDelete(y.live, Runs, h);
    CountDelete(y.live, Waits, h);
    forall k ensures CountedIn(z, k) {
      assert CountedIn(y, k);
      CountDelete(y.live, RunsIn(k), h);
      CountDelete(y.live, WaitsIn(k), h);
    }
  }

  lemma DropInv(lim: Limits, y: System, h: nat)
    requires Inv(lim, y) && h in y.live
    ensures Apply(lim, y, Drop(h)).Next? && Inv(lim, Apply(lim, y, Drop(h)).system)
  {
    LiveHolds(lim, y, h);
    ReleaseValid(lim, y.state, y.live[h].key, HoldOf(y.live[h]));
    DropOwned(lim, y, h);
    DropCounted(lim, y, h);
  }

  lemma NotifyCounted(lim: Limits, y: System)
    requires Counted(y) && y.unsent > 0
    ensures Counted(Apply(lim, y, Notify).system)
  {
    var z := Apply(lim, y, Notify).system;
    assert Chosen(z.live, Runs) == Chosen(y.live, Runs);
    assert Chosen(z.live, Waits) == Chosen(y.live, Waits);
    forall k ensures CountedIn(z, k) {
      assert CountedIn(y, k);
      assert Chosen(z.live, RunsIn(k)) == Chosen(y.live, RunsIn(k));
      assert Chosen(z.live, WaitsIn(k)) == Chosen(y.live, WaitsIn(k));
    }
  }

  /** A notification signals every registered waiter, so nobody is left waiting for it. */
  lemma NotifyInv(lim: Limits, y: System)
    requires Inv(lim, y) && y.unsent > 0
    ensures Inv(lim, Apply(lim, y, Notify).system)
  {
    var z := Apply(lim, y, Notify).system;
    NotifyCounted(lim, y);
    forall g | g in z.live ensures Queued(z, g) && AwakeAt(lim, z, g) { assert Queued(y, g); }
    forall f, g ensures Distinct(z, f, g) { assert Distinct(y, f, g); }
  }

  /** No event panics, and each keeps conservation and the wake-up guarantee. */
  lemma StepInv(lim: Limits, y: System, e: Event)
    requires Inv(lim, y) && Positive(lim)
    ensures !Apply(lim, y, e).Panic?
    ensures Apply(lim, y, e).Next? ==> Inv(lim, Apply(lim, y, e).system)
  {
    match e
    case Enter(h, k) => if h !in y.live { EnterInv(lim, y, h, k); }
    case Arm(h) => if Apply(lim, y, e).Next? { ArmInv(lim, y, h); }
    case Try(h) => if h in y.live && y.live[h].phase.Armed? { TryInv(lim, y, h); }
    case Drop(h) => if h in y.live { DropInv(lim, y, h); }
    case Notify => if y.unsent > 0 { NotifyInv(lim, y); }
  }

  /** The invariant holds after every run, and the next event of any kind does not panic. */
  lemma {:induction false} EveryRun(lim: Limits, y: System, es: seq<Event>, z: System)
    requires Inv(lim, y) && Positive(lim) && Reaches(lim, y, es, z)
    ensures Inv(lim, z) && forall e :: !Apply(lim, z, e).Panic?
    decreases |es|
  {
    if es == [] {
      forall e { StepInv(lim, z, e); }
    } else {
      StepInv(lim, y, es[0]);
      EveryRun(lim, Apply(lim, y, es[0]).system, es[1..], z);
    }
  }

  /**
   When all notifications are delivered and every waiting owner sleeps, no capacity is wasted:
   either all slots are taken or every queued partition is at its own limit.
   */
  lemma SettledMeansFull(lim: Limits, es: seq<Event>, z: System, k: Key)
    requires Positive(lim) && Reaches(lim, START, es, z)
    requires z.unsent == 0 && forall h :: h in z.live && Waits(z.live[h]) ==> z.live[h].phase == Asleep(false)
    requires k in z.state.order
    ensures z.state.active == lim.active || !Below(lim, z.state, k)
  {
    StartInv(lim);
    EveryRun(lim, START, es, z);
    if z.state.active < lim.active && Below(lim, z.state, k) {
      var l, id := SpareCapacityIsStartable(lim, z.state, k);
      var owner := WaitingIsOwned(lim, z, l, id);
    }
  }

  /** Every queue entry belongs to a live waiting ticket. */
  lemma WaitingIsOwned(lim: Limits, y: System, k: Key, id: nat) returns (h: nat)
    requires Inv(lim, y) && id in Part(y.state, k).waiting
    ensures h in y.live && y.live[h].key == k && y.live[h].id == id && Waits(y.live[h])
  {
    var owners := Chosen(y.live, WaitsIn(k));
    var w := Part(y.state, k).waiting;
    if forall g :: g in owners ==> y.live[g].id != id {
      assert PartitionOk(lim, y.state, k);
      WithoutNoDup(w, id);
      var ids := set g | g in owners :: y.live[g].id;
      forall f, g | f in owners && g in owners && f != g ensures y.live[f].id != y.live[g].id {
        assert Distinct(y, f, g);
      }
      forall g | g in owners ensures y.live[g].id in Without(w, id) { assert Queued(y, g); }
      assert CountedIn(y, k);
      Injected(y.live, owners, ids);
      assert ids <= set x | x in Without(w, id);
      SetFits(ids, Without(w, id));
      assert false;
    }
    h :| h in owners && y.live[h].id == id;
  }

  lemma {:induction false} Injected(live: map<nat, Live>, owners: set<nat>, ids: set<nat>)
    requires forall g :: g in owners ==> g in live
    requires forall g, h :: g in owners && h in owners && g != h ==> live[g].id != live[h].id
    requires ids == set g | g in owners :: live[g].id
    ensures |ids| == |owners|
  {
    if owners != {} {
      var g :| g in owners;
      Injected(live, owners - {g}, ids - {live[g].id});
    }
  }

  lemma {:induction false} SetFits(ids: set<nat>, w: seq<nat>)
    requires forall x :: x in ids ==> x in w
    ensures |ids| <= |w|
  {
    if w != [] {
      assert w == [w[0]] + w[1..];
      SetFits(ids - {w[0]}, w[1..]);
    } else {
      assert ids == {};
    }
  }

  /**
   In every run an arrival is refused only when the live waiting tickets fill the queue, or those of
   its own partition fill their share; one that is accepted without a slot waits as the last of its
   partition, behind everyone who waited before.
   */
  lemma RefusedOnlyWhenFull(lim: Limits, es: seq<Event>, y: System, h: nat, k: Key)
    requires Positive(lim) && Reaches(lim, START, es, y) && h !in y.live
    ensures var e := Apply(lim, y, Enter(h, k));
            && e.Next?
            && (h !in e.system.live ==>
                  Count(y.live, Waits) == lim.queue || Count(y.live, WaitsIn(k)) == lim.partitionQueue)
            && (h !in e.system.live ==> e.system == y)
            && (h in e.system.live && Waits(e.system.live[h]) ==>
                  Part(e.system.state, k).waiting == Part(y.state, k).waiting + [e.system.live[h].id])
  {
    StartInv(lim);
    EveryRun(lim, START, es, y);
    assert !Apply(lim, y, Enter(h, k)).Panic?;
    ArrivalFate(lim, y.state, k);
    assert CountedIn(y, k);
    if !Arrive(lim, y.state, k).Busy? { ArrivalPlace(lim, y.state, k, k); }
  }

  // ----- bounded bypass -----

  ghost predicate WaitsWith(y: System, h: nat, k: Key, id: nat) {
    h in y.live && Waits(y.live[h]) && y.live[h].key == k && y.live[h].id == id
  }

  /** Turns still ahead of a waiting ticket, weighted by the longest possible round. */
  ghost function Rank(lim: Limits, s: State, k: Key, id: nat): nat
    requires k in s.order && id in Part(s, k).waiting && lim.queue > 0
  {
    IndexOf(s.order, k) + Rounds(IndexOf(Part(s, k).waiting, id), lim.queue - 1)
  }

  ghost function Rounds(n: nat, length: nat): nat {
    if n == 0 then 0 else length + Rounds(n - 1, length)
  }

  lemma {:induction false} RoundsProduct(n: nat, length: nat)
    ensures Rounds(n, length) == n * length
  {
    if n > 0 {
      RoundsProduct(n - 1, length);
      assert n * length == (n - 1) * length + length;
    }
  }

  lemma {:induction false} RoundsMonotone(m: nat, n: nat, length: nat)
    requires m <= n
    ensures Rounds(m, length) <= Rounds(n, length)
  {
    if m < n { RoundsMonotone(m, n - 1, length); }
  }

  /** `e` gives a slot to another partition although `k` is below its own limit. */
  ghost predicate StartsOther(lim: Limits, y: System, e: Event, k: Key) {
    Below(lim, y.state, k) &&
    match e
    case Enter(h, l) => h !in y.live && CanStart(lim, y.state, l) && l != k
    case Try(h) => h in y.live && y.live[h].phase.Armed? && y.live[h].key != k
                   && Startable(lim, y.state, y.live[h].key, y.live[h].id)
    case _ => false
  }

  ghost function OtherStarts(lim: Limits, y: System, es: seq<Event>, k: Key): nat
    decreases |es|
  {
    if es == [] || !Apply(lim, y, es[0]).Next? then 0
    else (if StartsOther(lim, y, es[0], k) then 1 else 0)
         + OtherStarts(lim, Apply(lim, y, es[0]).system, es[1..], k)
  }

  lemma WaitingRanked(lim: Limits, y: System, h: nat, k: Key, id: nat)
    requires Inv(lim, y) && WaitsWith(y, h, k, id)
    ensures k in y.state.order && id in Part(y.state, k).waiting
  {
    assert PartitionOk(lim, y.state, k);
  }

  /** A start of another partition moves k one turn forward, unless k was saturated anyway. */
  lemma OtherStartRank(lim: Limits, s: State, l: Key, first: nat, k: Key, id: nat)
    requires Valid(lim, s) && Startable(lim, s, l, first) && s.queued > 0 && lim.queue > 0
    requires l != k && k in s.order && id in Part(s, k).waiting
    ensures var t := Start(lim, s, l, first);
            k in t.order && id in Part(t, k).waiting
            && Rank(lim, t, k, id) + (if Below(lim, s, k) then 1 else 0) <= Rank(lim, s, k, id)
  {
    var t := Start(lim, s, l, first);
    var i, j := Scan(lim, s, 0), IndexOf(s.order, k);
    var rest := s.order[..i] + s.order[i + 1..];
    assert Part(t, k) == Part(s, k);
    if j > i {
      assert rest[j - 1] == k && t.order[j - 1] == k;
    } else {
      assert j < i && t.order[j] == k;
    }
  }

  /** A start of k's own queue costs it a whole round, paid by the ticket that left the queue. */
  lemma OwnStartRank(lim: Limits, s: State, first: nat, k: Key, id: nat)
    requires Valid(lim, s) && Startable(lim, s, k, first) && s.queued > 0 && lim.queue > 0
    requires k in s.order && id in Part(s, k).waiting && id != first
    ensures var t := Start(lim, s, k, first);
            k in t.order && id in Part(t, k).waiting && Rank(lim, t, k, id) <= Rank(lim, s, k, id)
  {
    var t := Start(lim, s, k, first);
    var w := Part(s, k).waiting;
    var p := IndexOf(w, id);
    assert w == [first] + w[1..] && w[1..][p - 1] == id;
    OrderBounded(lim, s);
    assert t.order[|t.order| - 1] == k;
    RoundsMonotone(IndexOf(w[1..], id), p - 1, lim.queue - 1);
  }

  /** Entering appends behind everyone, and never takes a slot an eligible waiter could use. */
  lemma ArriveRank(lim: Limits, s: State, l: Key, k: Key, id: nat)
    requires k in s.order && id in Part(s, k).waiting && lim.queue > 0 && !Arrive(lim, s, l).Busy?
    ensures var t := Arrive(lim, s, l).state;
            k in t.order && id in Part(t, k).waiting && Rank(lim, t, k, id) == Rank(lim, s, k, id)
    ensures CanStart(lim, s, l) ==> !Below(lim, s, k)
  {
    var t := Arrive(lim, s, l).state;
    assert t.order[IndexOf(s.order, k)] == k;
    assert Part(t, k).waiting[IndexOf(Part(s, k).waiting, id)] == id;
  }

  lemma ReleaseRank(lim: Limits, s: State, l: Key, hold: Hold, k: Key, id: nat)
    requires k in s.order && id in Part(s, k).waiting && lim.queue > 0 && Holds(s, l, hold)
    requires !(l == k && hold == Place(id))
    ensures var t := Release(s, l, hold);
            k in t.order && id in Part(t, k).waiting && Rank(lim, t, k, id) <= Rank(lim, s, k, id)
  {
    var t := Release(s, l, hold);
    if l != k {
      IndexOfWithout(s.order, l, k);
      assert Part(t, k) == Part(s, k);
    } else {
      ReleaseSibling(lim, s, k, hold, id);
    }
  }

  lemma ReleaseSibling(lim: Limits, s: State, k: Key, hold: Hold, id: nat)
    requires k in s.order && id in Part(s, k).waiting && lim.queue > 0 && Holds(s, k, hold) && hold != Place(id)
    ensures var t := Release(s, k, hold);
            k in t.order && id in Part(t, k).waiting && Rank(lim, t, k, id) <= Rank(lim, s, k, id)
  {
    var t := Release(s, k, hold);
    var w := s.partitions[k].waiting;
    var left := if hold.Place? then Without(w, hold.id) else w;
    assert id in left;
    assert t.order == s.order && Part(t, k).waiting == left;
    if hold.Place? { IndexOfWithout(w, hold.id, id); }
    RankFalls(lim, s, t, k, id);
  }

  lemma RankFalls(lim: Limits, s: State, t: State, k: Key, id: nat)
    requires k in s.order && id in Part(s, k).waiting && lim.queue > 0
    requires s.order == t.order && id in Part(t, k).waiting
    requires IndexOf(Part(t, k).waiting, id) <= IndexOf(Part(s, k).waiting, id)
    ensures Rank(lim, t, k, id) <= Rank(lim, s, k, id)
  {
    RoundsMonotone(IndexOf(Part(t, k).waiting, id), IndexOf(Part(s, k).waiting, id), lim.queue - 1);
  }

  /** One event: the rank of a ticket that keeps waiting drops by one for every foreign start. */
  lemma StepRank(lim: Limits, y: System, e: Event, h: nat, k: Key, id: nat)
    requires Inv(lim, y) && Positive(lim) && WaitsWith(y, h, k, id)
    requires k in y.state.order && id in Part(y.state, k).waiting
    requires Apply(lim, y, e).Next? && WaitsWith(Apply(lim, y, e).system, h, k, id)
    ensures var t := Apply(lim, y, e).system.state;
            k in t.order && id in Part(t, k).waiting
            && Rank(lim, t, k, id) + (if StartsOther(lim, y, e, k) then 1 else 0) <= Rank(lim, y.state, k, id)
  {
    match e
    case Enter(g, l) =>
      if !Arrive(lim, y.state, l).Busy? { ArriveRank(lim, y.state, l, k, id); }
    case Try(g) =>
      var t := y.live[g];
      assert Distinct(y, g, h);
      if Startable(lim, y.state, t.key, t.id) {
        if t.key == k { OwnStartRank(lim, y.state, t.id, k, id); }
        else { OtherStartRank(lim, y.state, t.key, t.id, k, id); }
      }
    case Drop(g) =>
      assert Distinct(y, g, h);
      ReleaseRank(lim, y.state, y.live[g].key, HoldOf(y.live[g]), k, id);
    case _ =>
  }

  /** A ticket that stopped waiting never waits under the same id again. */
  lemma {:induction false} GoneStaysGone(lim: Limits, y: System, es: seq<Event>, z: System, h: nat, k: Key, id: nat)
    requires Reaches(lim, y, es, z)
    requires !WaitsWith(y, h, k, id) && id < y.state.next
    ensures !WaitsWith(z, h, k, id)
    decreases |es|
  {
    if es != [] {
      GoneStaysGone(lim, Apply(lim, y, es[0]).system, es[1..], z, h, k, id);
    }
  }

  /** Over a run through which a ticket keeps waiting, foreign starts are paid for by its rank. */
  lemma {:induction false} RunRank(lim: Limits, y: System, es: seq<Event>, z: System, h: nat, k: Key, id: nat)
    requires Inv(lim, y) && Positive(lim) && Reaches(lim, y, es, z)
    requires WaitsWith(y, h, k, id) && WaitsWith(z, h, k, id)
    requires k in y.state.order && id in Part(y.state, k).waiting
    ensures k in z.state.order && id in Part(z.state, k).waiting
    ensures OtherStarts(lim, y, es, k) + Rank(lim, z.state, k, id) <= Rank(lim, y.state, k, id)
    decreases |es|
  {
    if es != [] {
      var x := Apply(lim, y, es[0]).system;
      StepInv(lim, y, es[0]);
      if !WaitsWith(x, h, k, id) {
        assert PartitionOk(lim, y.state, k);
        GoneStaysGone(lim, x, es[1..], z, h, k, id);
      }
      StepRank(lim, y, es[0], h, k, id);
      RunRank(lim, x, es[1..], z, h, k, id);
    }
  }

  /**
   Bounded bypass: while a ticket with `ahead` tickets before it in its queue waits, other
   partitions get at most (ahead + 1) * (queue limit - 1) slots at moments when the ticket's own
   partition was below its limit.
   */
  lemma BoundedBypass(lim: Limits, past: seq<Event>, y: System, es: seq<Event>, z: System, h: nat, ahead: nat)
    requires Positive(lim) && Reaches(lim, START, past, y) && Reaches(lim, y, es, z)
    requires h in y.live && WaitsWith(y, h, y.live[h].key, y.live[h].id)
    requires WaitsWith(z, h, y.live[h].key, y.live[h].id)
    requires ahead < |Part(y.state, y.live[h].key).waiting|
    requires Part(y.state, y.live[h].key).waiting[ahead] == y.live[h].id
    ensures OtherStarts(lim, y, es, y.live[h].key) <= (ahead + 1) * (lim.queue - 1)
  {
    StartInv(lim);
    EveryRun(lim, START, past, y);
    BypassFrom(lim, y, es, z, h, y.live[h].key, y.live[h].id, ahead);
  }

  lemma BypassFrom(lim: Limits, y: System, es: seq<Event>, z: System, h: nat, k: Key, id: nat, ahead: nat)
    requires Inv(lim, y) && Positive(lim) && Reaches(lim, y, es, z)
    requires WaitsWith(y, h, k, id) && WaitsWith(z, h, k, id)
    requires ahead < |Part(y.state, k).waiting| && Part(y.state, k).waiting[ahead] == id
    ensures OtherStarts(lim, y, es, k) <= (ahead + 1) * (lim.queue - 1)
  {
    WaitingRanked(lim, y, h, k, id);
    RunRank(lim, y, es, z, h, k, id);
    RankBounded(lim, y.state, k, id, ahead);
  }

  lemma RankBounded(lim: Limits, s: State, k: Key, id: nat, ahead: nat)
    requires Valid(lim, s) && lim.queue > 0 && k in s.order
    requires ahead < |Part(s, k).waiting| && Part(s, k).waiting[ahead] == id
    ensures Rank(lim, s, k, id) <= (ahead + 1) * (lim.queue - 1)
  {
    OrderBounded(lim, s);
    RoundsMonotone(IndexOf(Part(s, k).waiting, id), ahead, lim.queue - 1);
    RoundsProduct(ahead + 1, lim.queue - 1);
  }

  ghost predicate StartsOwn(lim: Limits, y: System, e: Event, k: Key) {
    e.Try? && e.h in y.live && y.live[e.h].phase.Armed? && y.live[e.h].key == k
        && Startable(lim, y.state, k, y.live[e.h].id)
  }

  /** Along the run `k` always has waiters, and none of them starts. */
  ghost predicate KeepsTurn(lim: Limits, y: System, es: seq<Event>, k: Key)
    decreases |es|
  {
    && k in y.state.order
    && (es != [] && Apply(lim, y, es[0]).Next? ==>
          !StartsOwn(lim, y, es[0], k) && KeepsTurn(lim, Apply(lim, y, es[0]).system, es[1..], k))
  }

  lemma ReleaseTurn(s: State, l: Key, hold: Hold, k: Key)
    requires k in s.order && Holds(s, l, hold) && k in Release(s, l, hold).order
    ensures IndexOf(Release(s, l, hold).order, k) <= IndexOf(s.order, k)
  {
    if l != k { IndexOfWithout(s.order, l, k); }
  }

  lemma TurnStep(lim: Limits, y: System, e: Event, k: Key)
    requires Inv(lim, y) && Positive(lim) && Apply(lim, y, e).Next? && !StartsOwn(lim, y, e, k)
    requires k in y.state.order && k in Apply(lim, y, e).system.state.order
    ensures IndexOf(Apply(lim, y, e).system.state.order, k) + (if StartsOther(lim, y, e, k) then 1 else 0)
         <= IndexOf(y.state.order, k)
  {
    assert PartitionOk(lim, y.state, k);
    var id := Part(y.state, k).waiting[0];
    match e
    case Enter(g, l) =>
      if !Arrive(lim, y.state, l).Busy? { ArriveRank(lim, y.state, l, k, id); }
    case Try(g) =>
      var t := y.live[g];
      if Startable(lim, y.state, t.key, t.id) { OtherStartRank(lim, y.state, t.key, t.id, k, id); }
    case Drop(g) => ReleaseTurn(y.state, y.live[g].key, HoldOf(y.live[g]), k);
    case _ =>
  }

  /**
   A partition at turn `i` is passed over at most `i` times while it is below its limit, before one
   of its own tickets starts, whatever becomes of the individual tickets.
   */
  lemma {:induction false} TurnBound(lim: Limits, y: System, es: seq<Event>, z: System, k: Key)
    requires Inv(lim, y) && Positive(lim) && Reaches(lim, y, es, z) && KeepsTurn(lim, y, es, k)
    ensures k in z.state.order && OtherStarts(lim, y, es, k) + IndexOf(z.state.order, k) <= IndexOf(y.state.order, k)
    decreases |es|
  {
    if es != [] {
      StepInv(lim, y, es[0]);
      TurnStep(lim, y, es[0], k);
      TurnBound(lim, Apply(lim, y, es[0]).system, es[1..], z, k);
    }
  }
}
