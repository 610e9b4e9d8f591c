/**
 Every ordering of abort, grant, continuation, body pulls and close over any number of exchanges
 that share one admission (packages/typescript/src/client.ts, executeStream): each synchronous
 segment between two awaits is one event.
 */
module Exchanges {
  import opened Collections
  import opened SdkAdmission

  /** Which await an exchange is suspended at; `Streaming` once its response was returned. */
  datatype Pc = Discovering | Acquiring | Running | Streaming | Closed

  /**
   `known`: the variable `release` holds the slot's closure. `reserved`: a discovery reservation
   was taken. `settled` counts how often the completion promise was resolved.
   */
  datatype Exchange = Exchange(partition: Key, pc: Pc, known: bool, reserved: bool, finished: bool, settled: nat)

  datatype Client = Client(slots: State, reservations: Pool, table: map<nat, Exchange>)

  datatype Event =
    | Begin(id: nat, partition: Key)
    | Discovered(id: nat)
    | Undiscovered(id: nat)
    | Granting(id: nat)
    | Refusing(id: nat)
    | Listener(id: nat)
    | Respond(id: nat)
    | Settle(id: nat)
    | Abort(id: nat)
    | Limit(limits: Limits)

  function Fresh(limits: Limits): Client { Client(New(limits), EMPTY_POOL, map[]) }

  predicate ReserveFull(c: Client, k: Key) {
    || c.reservations.total >= c.slots.limits.concurrent + c.slots.limits.queued
    || Get(c.reservations.per, k) >= c.slots.limits.perPartition + c.slots.limits.queuedPerPartition
  }

  /**
   `finish`: the first call settles, fires the deadline's signal, runs the slot's closure if it is
   known and gives the reservation back; later calls do nothing.
   */
  function Finish(c: Client, id: nat): Client
    requires id in c.table
  {
    var e := c.table[id];
    if e.finished then c
    else
      var signalled := Signal(c.slots, id);
      Client(if e.known then Release(signalled, id) else signalled,
             Give(c.reservations, id),
             c.table[id := e.(finished := true, settled := e.settled + 1)])
  }

  function At(c: Client, id: nat, pc: Pc): Client
    requires id in c.table
  {
    c.(table := c.table[id := c.table[id].(pc := pc)])
  }

  predicate Enabled(c: Client, v: Event) {
    match v
    case Begin(id, _) => id !in c.table
    case Discovered(id) => id in c.table && c.table[id].pc.Discovering?
    case Undiscovered(id) => id in c.table && c.table[id].pc.Discovering?
    case Granting(id) => id in c.table && c.table[id].pc.Acquiring? && id in c.slots.slots.held
    case Refusing(id) => id in c.table && c.table[id].pc.Acquiring? && id !in c.slots.slots.held
                         && Find(c.slots.waiting, id) == |c.slots.waiting|
    case Listener(id) => id in c.table && c.table[id].finished
    case Respond(id) => id in c.table && c.table[id].pc.Running? && !c.table[id].finished
    case Settle(id) => id in c.table && (c.table[id].pc.Running? || c.table[id].pc.Streaming?)
    case Abort(id) => id in c.table
    case Limit(_) => true
  }

  function Apply(c: Client, v: Event): Client
    requires Enabled(c, v)
  {
    match v
    case Begin(id, k) =>
      if ReserveFull(c, k) then c.(table := c.table[id := Exchange(k, Closed, false, false, true, 1)])
      else Client(c.slots, Take(c.reservations, id, k),
                  c.table[id := Exchange(k, Discovering, false, true, false, 0)])
    case Discovered(id) =>
      // A finished exchange has an aborted deadline, which the admission refuses at once.
      if c.table[id].finished then At(c, id, Closed)
      else (
        match Acquire(c.slots, id, c.table[id].partition)
        case Granted(s) => At(c.(slots := s), id, Acquiring)
        case Queued(s) => At(c.(slots := s), id, Acquiring)
        case Busy => At(Finish(c, id), id, Closed))
    case Undiscovered(id) => At(Finish(c, id), id, Closed)
    case Granting(id) =>
      var next := c.(table := c.table[id := c.table[id].(known := true, pc := Running)]);
      if c.table[id].finished then At(next.(slots := Release(c.slots, id)), id, Closed) else next
    case Refusing(id) => At(Finish(c, id), id, Closed)
    case Listener(id) => c.(slots := Abandon(c.slots, id))
    case Respond(id) => At(c, id, Streaming)
    case Settle(id) => At(Finish(c, id), id, Closed)
    case Abort(id) => Finish(c, id)
    case Limit(limits) => c.(slots := Constrain(c.slots, limits))
  }

  ghost predicate Reaches(c: Client, vs: seq<Event>, d: Client)
    decreases |vs|
  {
    if vs == [] then c == d else Enabled(c, vs[0]) && Reaches(Apply(c, vs[0]), vs[1..], d)
  }

  // ----- what every exchange owns at every await -----

  ghost predicate Untouched(c: Client, id: nat) {
    && id !in c.slots.slots.held && id !in c.slots.slots.returned && id !in Ids(c.slots)
    && id !in c.reservations.held && id !in c.reservations.returned
  }

  /** The share of one exchange in the queue and the slots. */
  ghost predicate SlotOk(s: State, id: nat, e: Exchange) {
    && (id in Ids(s) ==> e.pc.Acquiring?)
    && (id in s.slots.held ==> e.pc.Acquiring? || (e.known && !e.finished))
    && (e.known ==> (id in s.slots.held <==> !e.finished) && (id in s.slots.returned <==> e.finished))
    && (!e.known ==> id !in s.slots.returned)
  }

  /** The share of one exchange in the reservations: held exactly until it is finished. */
  ghost predicate ReservationOk(p: Pool, id: nat, e: Exchange) {
    && (id in p.held <==> e.reserved && !e.finished)
    && (id in p.returned <==> e.reserved && e.finished)
  }

  predicate PhaseOk(e: Exchange) {
    && e.settled == (if e.finished then 1 else 0)
    && (e.pc.Running? || e.pc.Streaming? ==> e.known)
    && (e.pc.Discovering? || e.pc.Acquiring? ==> !e.known)
    && (e.pc.Closed? ==> e.finished)
  }

  ghost predicate ExchangeOk(c: Client, id: nat) {
    if id !in c.table then Untouched(c, id)
    else SlotOk(c.slots, id, c.table[id]) && ReservationOk(c.reservations, id, c.table[id]) && PhaseOk(c.table[id])
  }

  ghost predicate Owned(c: Client) {
    Inv(c.slots) && PoolOk(c.reservations) && forall id :: ExchangeOk(c, id)
  }

  // ----- changes made for one exchange leave the others' shares intact -----

  /** Apart from `id`, a change of the admission only moves waiters into slots or out of the queue. */
  ghost predicate Spares(s: State, t: State, id: nat) {
    forall h :: h != id ==> SparesAt(s, t, h)
  }

  ghost predicate SparesAt(s: State, t: State, h: nat) {
    && (h in Ids(t) ==> h in Ids(s))
    && (h in s.slots.held ==> h in t.slots.held)
    && (h in t.slots.held ==> h in s.slots.held || h in Ids(s))
    && (h in t.slots.returned <==> h in s.slots.returned)
  }

  lemma SparesTrans(s: State, t: State, u: State, id: nat)
    requires Spares(s, t, id) && Spares(t, u, id)
    ensures Spares(s, u, id)
  {
    forall h | h != id ensures SparesAt(s, u, h) { assert SparesAt(s, t, h) && SparesAt(t, u, h); }
  }

  lemma SignalSpares(s: State, id: nat)
    requires Inv(s)
    ensures Spares(s, Signal(s, id), id) && Inv(Signal(s, id)) && Ids(Signal(s, id)) == Ids(s)
  {
    SignalInv(s, id);
  }

  lemma ReleaseSpares(s: State, id: nat)
    requires Inv(s)
    ensures Spares(s, Release(s, id), id) && Inv(Release(s, id)) && id !in Release(s, id).slots.held
    ensures id in s.slots.held ==> id in Release(s, id).slots.returned && id !in Ids(Release(s, id))
  {
    ReleaseInv(s, id);
    if id in s.slots.held {
      FreedIds(s, id);
      GiveOk(s.slots, id);
      PassMoves(Freed(s, id), 0);
    }
  }

  lemma AbandonSpares(s: State, id: nat)
    requires Inv(s)
    ensures Spares(s, Abandon(s, id), id) && Inv(Abandon(s, id))
  {
    AbandonInv(s, id);
  }

  lemma AcquireSpares(s: State, id: nat, k: Key)
    requires Inv(s) && id !in s.slots.held && id !in s.slots.returned && id !in Ids(s)
    ensures !Acquire(s, id, k).Busy? ==> Inv(Acquire(s, id, k).state) && Spares(s, Acquire(s, id, k).state, id)
    ensures !Acquire(s, id, k).Busy? ==> id !in Acquire(s, id, k).state.slots.returned
    ensures Acquire(s, id, k).Granted? ==> id !in Ids(Acquire(s, id, k).state)
  {
    AcquireInv(s, id, k);
    if Acquire(s, id, k).Queued? {
      var t := Acquire(s, id, k).state;
      forall h | h != id ensures SparesAt(s, t, h) {
        if h in Ids(t) {
          var w :| w in t.waiting && w.id == h;
          assert w in s.waiting;
        }
      }
    }
  }

  /** The step changed only exchange `id` and spared every other share. */
  lemma OthersOk(c: Client, d: Client, id: nat)
    requires Owned(c) && Spares(c.slots, d.slots, id)
    requires forall h :: h != id ==> (h in d.table <==> h in c.table) && (h in c.table ==> d.table[h] == c.table[h])
    requires forall h :: h != id ==> (h in d.reservations.held <==> h in c.reservations.held)
    requires forall h :: h != id ==> (h in d.reservations.returned <==> h in c.reservations.returned)
    ensures forall h :: h != id ==> ExchangeOk(d, h)
  {
    forall h | h != id ensures ExchangeOk(d, h) {
      assert ExchangeOk(c, h) && SparesAt(c.slots, d.slots, h);
    }
  }

  lemma FinishOwned(c: Client, id: nat)
    requires Owned(c) && id in c.table
    ensures Owned(Finish(c, id)) && Finish(c, id).table[id] == c.table[id].(finished := true, settled := 1)
    ensures Finish(c, id).slots.slots.held.Keys * {id} <= c.slots.slots.held.Keys
    ensures Ids(Finish(c, id).slots) * {id} <= Ids(c.slots)
  {
    assert ExchangeOk(c, id);
    var e, d := c.table[id], Finish(c, id);
    if e.finished { return; }
    GiveOk(c.reservations, id);
    SignalSpares(c.slots, id);
    var t := Signal(c.slots, id);
    if e.known {
      ReleaseSpares(t, id);
      SparesTrans(c.slots, t, Release(t, id), id);
    }
    OthersOk(c, d, id);
    assert ExchangeOk(d, id);
  }

  /** Moving an exchange that is finished and not holding anything to `Closed` keeps all shares. */
  lemma CloseOwned(c: Client, id: nat)
    requires Owned(c) && id in c.table && c.table[id].finished
    requires id !in c.slots.slots.held && id !in Ids(c.slots)
    ensures Owned(At(c, id, Closed))
  {
    assert ExchangeOk(c, id);
    var d := At(c, id, Closed);
    OthersOk(c, d, id);
    assert ExchangeOk(d, id);
  }

  lemma NotWaiting(s: State, id: nat)
    requires Find(s.waiting, id) == |s.waiting|
    ensures id !in Ids(s)
  {
  }

  lemma BeginOwned(c: Client, id: nat, k: Key)
    requires Owned(c) && id !in c.table
    ensures Owned(Apply(c, Begin(id, k)))
  {
    assert ExchangeOk(c, id);
    var d := Apply(c, Begin(id, k));
    if !ReserveFull(c, k) { TakeOk(c.reservations, id, k); }
    OthersOk(c, d, id);
    assert ExchangeOk(d, id);
  }

  lemma DiscoveredOwned(c: Client, id: nat)
    requires Owned(c) && Enabled(c, Discovered(id))
    ensures Owned(Apply(c, Discovered(id)))
  {
    assert ExchangeOk(c, id);
    var e := c.table[id];
    if e.finished {
      CloseOwned(c, id);
    } else {
      var a := Acquire(c.slots, id, e.partition);
      AcquireSpares(c.slots, id, e.partition);
      if a.Busy? {
        FinishOwned(c, id);
        CloseOwned(Finish(c, id), id);
      } else {
        var d := Apply(c, Discovered(id));
        OthersOk(c, d, id);
        assert ExchangeOk(d, id);
      }
    }
  }

  /** The continuation of the grant: an exchange aborted in between hands the slot straight back. */
  lemma GrantingOwned(c: Client, id: nat)
    requires Owned(c) && Enabled(c, Granting(id))
    ensures Owned(Apply(c, Granting(id)))
  {
    assert ExchangeOk(c, id);
    var d := Apply(c, Granting(id));
    forall i | 0 <= i < |c.slots.waiting| ensures c.slots.waiting[i].id != id { assert Pending(c.slots, i); }
    assert id !in Ids(c.slots);
    if c.table[id].finished { ReleaseSpares(c.slots, id); }
    OthersOk(c, d, id);
    assert ExchangeOk(d, id);
  }

  lemma RefusingOwned(c: Client, id: nat)
    requires Owned(c) && Enabled(c, Refusing(id))
    ensures Owned(Apply(c, Refusing(id)))
  {
    FinishOwned(c, id);
    NotWaiting(c.slots, id);
    CloseOwned(Finish(c, id), id);
  }

  lemma ListenerOwned(c: Client, id: nat)
    requires Owned(c) && Enabled(c, Listener(id))
    ensures Owned(Apply(c, Listener(id)))
  {
    assert ExchangeOk(c, id);
    AbandonSpares(c.slots, id);
    AbandonInv(c.slots, id);
    var d := Apply(c, Listener(id));
    OthersOk(c, d, id);
    assert ExchangeOk(d, id);
  }

  lemma SettleOwned(c: Client, id: nat)
    requires Owned(c) && id in c.table && !c.table[id].pc.Acquiring?
    ensures Owned(At(Finish(c, id), id, Closed))
  {
    FinishOwned(c, id);
    assert ExchangeOk(Finish(c, id), id);
    CloseOwned(Finish(c, id), id);
  }

  lemma RespondOwned(c: Client, id: nat)
    requires Owned(c) && Enabled(c, Respond(id))
    ensures Owned(Apply(c, Respond(id)))
  {
    assert ExchangeOk(c, id);
    var d := Apply(c, Respond(id));
    OthersOk(c, d, id);
    assert ExchangeOk(d, id);
  }

  lemma LimitOwned(c: Client, limits: Limits)
    requires Owned(c)
    ensures Owned(Apply(c, Limit(limits)))
  {
    ConstrainInv(c.slots, limits);
    var d := Apply(c, Limit(limits));
    forall id ensures ExchangeOk(d, id) { assert ExchangeOk(c, id); }
  }

  lemma StepOwned(c: Client, v: Event)
    requires Owned(c) && Enabled(c, v)
    ensures Owned(Apply(c, v))
  {
    match v
    case Begin(id, k) => BeginOwned(c, id, k);
    case Discovered(id) => DiscoveredOwned(c, id);
    case Undiscovered(id) => SettleOwned(c, id);
    case Granting(id) => GrantingOwned(c, id);
    case Refusing(id) => RefusingOwned(c, id);
    case Listener(id) => ListenerOwned(c, id);
    case Respond(id) => RespondOwned(c, id);
    case Settle(id) => SettleOwned(c, id);
    case Abort(id) => FinishOwned(c, id);
    case Limit(limits) => LimitOwned(c, limits);
  }

  lemma FreshOwned(limits: Limits)
    ensures Owned(Fresh(limits))
  {
    NewInv(limits);
    var c := Fresh(limits);
    assert forall id :: ExchangeOk(c, id);
  }

  lemma {:induction false} EveryRun(c: Client, vs: seq<Event>, d: Client)
    requires Owned(c) && Reaches(c, vs, d)
    ensures Owned(d)
    decreases |vs|
  {
    if vs != [] {
      StepOwned(c, vs[0]);
      EveryRun(Apply(c, vs[0]), vs[1..], d);
    }
  }

  /**
   Released once: after any run, an exchange that is finished and not suspended in the grant has
   settled exactly once, holds no slot and no reservation, and what it obtained was given back.
   */
  lemma ReleasedOnce(limits: Limits, vs: seq<Event>, d: Client, id: nat)
    requires Reaches(Fresh(limits), vs, d) && id in d.table
    requires d.table[id].finished && !d.table[id].pc.Acquiring?
    ensures d.table[id].settled == 1
    ensures id !in d.slots.slots.held && id !in Ids(d.slots) && id !in d.reservations.held
    ensures d.table[id].known <==> id in d.slots.slots.returned
    ensures d.table[id].reserved <==> id in d.reservations.returned
  {
    FreshOwned(limits);
    EveryRun(Fresh(limits), vs, d);
    assert ExchangeOk(d, id);
  }

  /** Nothing leaks: when every exchange is done, all counters are back at zero and nobody waits. */
  lemma NothingLeaks(limits: Limits, vs: seq<Event>, d: Client)
    requires Reaches(Fresh(limits), vs, d)
    requires forall id :: id in d.table ==> d.table[id].finished && !d.table[id].pc.Acquiring?
    ensures d.slots.slots.total == 0 && d.reservations.total == 0 && d.slots.waiting == []
  {
    FreshOwned(limits);
    EveryRun(Fresh(limits), vs, d);
    forall id ensures id !in d.slots.slots.held && id !in d.reservations.held && id !in Ids(d.slots) {
      assert ExchangeOk(d, id);
    }
    assert d.slots.slots.held == map[] && d.reservations.held == map[];
    assert |d.slots.waiting| == 0 || d.slots.waiting[0].id in Ids(d.slots);
  }

  /** Between any two events nobody waits for a slot that is free. */
  lemma NobodyWaitsForAFreeSlot(limits: Limits, vs: seq<Event>, d: Client, w: Waiter)
    requires Reaches(Fresh(limits), vs, d) && w in d.slots.waiting
    ensures !Available(d.slots, w.partition)
  {
    FreshOwned(limits);
    EveryRun(Fresh(limits), vs, d);
  }

  /**
   An exchange is turned away at its start exactly when the reservations fill both budgets of the
   whole client or of its partition, and later exactly when it is neither granted nor has a place in
   the queue; nothing else refuses it.
   */
  lemma RefusedOnlyWhenFull(limits: Limits, vs: seq<Event>, c: Client, id: nat, k: Key)
    requires Reaches(Fresh(limits), vs, c)
    ensures id !in c.table ==>
              var l := c.slots.limits;
              (Apply(c, Begin(id, k)).table[id].finished <==>
                 || |c.reservations.held| >= l.concurrent + l.queued
                 || Count(c.reservations.held, Is(k)) >= l.perPartition + l.queuedPerPartition)
    ensures id in c.table && c.table[id].pc.Discovering? && !c.table[id].finished
            && Apply(c, Discovered(id)).table[id].finished ==>
              || |c.slots.waiting| >= c.slots.limits.queued
              || |QueuedOf(c.slots.waiting, c.table[id].partition)| >= c.slots.limits.queuedPerPartition
  {
    FreshOwned(limits);
    EveryRun(Fresh(limits), vs, c);
    assert PoolAt(c.reservations, k);
    if id in c.table { AcquireFate(c.slots, id, c.table[id].partition); }
  }

  /** Once its abort listener ran, an exchange has left the queue. */
  lemma ListenerLeaves(c: Client, id: nat)
    requires Owned(c) && Enabled(c, Listener(id))
    ensures id !in Ids(Apply(c, Listener(id)).slots)
  {
    AbandonInv(c.slots, id);
  }

  lemma LimitsShrink(c: Client, v: Event)
    requires Owned(c) && Enabled(c, v)
    ensures var s, t := c.slots.limits, Apply(c, v).slots.limits;
            && t.concurrent <= s.concurrent && t.perPartition <= s.perPartition
            && t.queued <= s.queued && t.queuedPerPartition <= s.queuedPerPartition
            && (v.Limit? ==> t.concurrent <= v.limits.concurrent && t.perPartition <= v.limits.perPartition
                             && t.queued <= v.limits.queued && t.queuedPerPartition <= v.limits.queuedPerPartition)
  {
    if v.Limit? { ConstrainTightens(c.slots, v.limits); } else { LimitsStay(c, v); }
  }

  lemma {:induction false} PassLimits(s: State, i: nat)
    ensures Pass(s, i).limits == s.limits
    decreases |s.waiting| - i
  {
    if i < |s.waiting| && Get(s.queuedBy, s.waiting[i].partition) > 0 {
      var (t, stays) := Visit(s, i);
      PassLimits(t, if stays then i + 1 else i);
    }
  }

  lemma OperationLimits(s: State, id: nat, k: Key)
    ensures Release(s, id).limits == s.limits && Abandon(s, id).limits == s.limits && Signal(s, id).limits == s.limits
    ensures !Acquire(s, id, k).Busy? ==> Acquire(s, id, k).state.limits == s.limits
  {
    if id in s.slots.held { PassLimits(Freed(s, id), 0); }
    var i := Find(s.waiting, id);
    if i < |s.waiting| && Get(s.queuedBy, s.waiting[i].partition) > 0 { PassLimits(Remove(s, i), 0); }
  }

  lemma LimitsStay(c: Client, v: Event)
    requires Enabled(c, v) && !v.Limit?
    ensures Apply(c, v).slots.limits == c.slots.limits
  {
    if !v.Begin? {
      OperationLimits(c.slots, v.id, c.table[v.id].partition);
      OperationLimits(Signal(c.slots, v.id), v.id, c.table[v.id].partition);
    }
  }

  /** Once the service has named its limits, no later state exceeds them: limits only ever tighten. */
  lemma {:induction false} LimitsOnlyTighten(c: Client, vs: seq<Event>, d: Client)
    requires Owned(c) && Reaches(c, vs, d)
    ensures d.slots.limits.concurrent <= c.slots.limits.concurrent && d.slots.limits.queued <= c.slots.limits.queued
    ensures d.slots.limits.perPartition <= c.slots.limits.perPartition
    ensures d.slots.limits.queuedPerPartition <= c.slots.limits.queuedPerPartition
    decreases |vs|
  {
    if vs != [] {
      LimitsShrink(c, vs[0]);
      StepOwned(c, vs[0]);
      LimitsOnlyTighten(Apply(c, vs[0]), vs[1..], d);
    }
  }
}
