/**
 Capacity of the context registry (src/contexts.rs): a create reserves before it builds its network
 client, publishes the context afterwards and drops the reservation last; creates may be abandoned
 at any await, and closes, sweeps and a shutdown interleave freely.
 */
module ContextRegistry {
  import opened Collections

  type Id = string
  type Owner = (string, string)

  datatype Limits = Limits(contexts: nat, perOwner: nat)

  datatype Registry = Registry(contexts: map<Id, Owner>, pending: map<Owner, nat>, pendingCount: nat, stopped: bool)

  const EMPTY: Registry := Registry(map[], map[], 0, false)

  function Of(o: Owner): Owner -> bool { (p: Owner) => p == o }

  // ----- the sections under the registry lock -----

  ghost predicate HasRoom(lim: Limits, r: Registry, o: Owner) {
    && !r.stopped
    && |r.contexts| + r.pendingCount < lim.contexts
    && Count(r.contexts, Of(o)) + Get(r.pending, o) < lim.perOwner
  }

  function Reserve(r: Registry, o: Owner): Registry {
    r.(pendingCount := r.pendingCount + 1, pending := r.pending[o := Get(r.pending, o) + 1])
  }

  function Publish(r: Registry, id: Id, o: Owner): Registry {
    r.(contexts := r.contexts[id := o])
  }

  /** The reservation's drop; `pendingCount - 1` would wrap at zero. */
  function Unreserve(r: Registry, o: Owner): Registry
    requires r.pendingCount > 0 && (o in r.pending ==> r.pending[o] > 0)
  {
    r.(pendingCount := r.pendingCount - 1,
       pending := if o !in r.pending then r.pending
                  else if r.pending[o] == 1 then r.pending - {o}
                  else r.pending[o := r.pending[o] - 1])
  }

  function Retain(r: Registry, dead: set<Id>): Registry {
    r.(contexts := map id | id in r.contexts && id !in dead :: r.contexts[id])
  }

  function Shut(r: Registry): Registry {
    r.(stopped := true, contexts := map[])
  }

  // ----- all interleavings -----

  /** A create in progress; `spent` once its context is in the table. */
  datatype Reservation = Reservation(owner: Owner, spent: bool)

  datatype Store = Store(registry: Registry, reservations: map<nat, Reservation>)

  datatype Event =
    | Begin(h: nat, owner: Owner)
    | Insert(h: nat, id: Id)
    | Drop(h: nat)
    | Close(id: Id, owner: Owner)
    | Sweep(dead: set<Id>)
    | Shutdown

  /** `Panic` is a counter that would drop below zero. */
  datatype Effect = Next(store: Store) | Disabled | Panic

  ghost function Apply(lim: Limits, s: Store, e: Event): Effect {
    var r := s.registry;
    match e
    case Begin(h, o) =>
      if h in s.reservations then Disabled
      else if !HasRoom(lim, r, o) then Next(s)
      else Next(Store(Reserve(r, o), s.reservations[h := Reservation(o, false)]))
    case Insert(h, id) =>
      if h !in s.reservations || s.reservations[h].spent || id in r.contexts then Disabled
      else if r.stopped then Next(s)
      else Next(Store(Publish(r, id, s.reservations[h].owner), s.reservations[h := s.reservations[h].(spent := true)]))
    case Drop(h) =>
      if h !in s.reservations then Disabled
      else
        var o := s.reservations[h].owner;
        if r.pendingCount == 0 || (o in r.pending && r.pending[o] == 0) then Panic
        else Next(Store(Unreserve(r, o), s.reservations - {h}))
    case Close(id, o) =>
      Next(if id in r.contexts && r.contexts[id] == o then s.(registry := Retain(r, {id})) else s)
    case Sweep(dead) => Next(s.(registry := Retain(r, dead)))
    case Shutdown => Next(s.(registry := Shut(r)))
  }

  ghost predicate Reaches(lim: Limits, s: Store, es: seq<Event>, z: Store)
    decreases |es|
  {
    if es == [] then s == z
    else Apply(lim, s, es[0]).Next? && Reaches(lim, Apply(lim, s, es[0]).store, es[1..], z)
  }

  function By(o: Owner): Reservation -> bool { (v: Reservation) => v.owner == o }

  function OpenBy(o: Owner): Reservation -> bool { (v: Reservation) => v.owner == o && !v.spent }

  predicate Open(v: Reservation) { !v.spent }

  ghost predicate OwnerOk(lim: Limits, s: Store, o: Owner) {
    && Get(s.registry.pending, o) == Count(s.reservations, By(o))
    && (o in s.registry.pending ==> s.registry.pending[o] > 0)
    && Count(s.registry.contexts, Of(o)) + Count(s.reservations, OpenBy(o)) <= lim.perOwner
  }

  /** A create between publishing and dropping its reservation counts twice, never too little. */
  ghost predicate Totals(lim: Limits, s: Store) {
    && s.registry.pendingCount == |s.reservations|
    && |s.registry.contexts| + Count(s.reservations, Open) <= lim.contexts
    && (s.registry.stopped ==> s.registry.contexts == map[])
  }

  ghost predicate Inv(lim: Limits, s: Store) {
    Totals(lim, s) && forall o :: OwnerOk(lim, s, o)
  }

  lemma OpenAtMost(m: map<nat, Reservation>, o: Owner)
    ensures Count(m, Open) <= |m| && Count(m, OpenBy(o)) <= Count(m, By(o))
  {
    SubsetSize(Chosen(m, Open), m.Keys);
    SubsetSize(Chosen(m, OpenBy(o)), Chosen(m, By(o)));
  }

  lemma BeginAt(lim: Limits, s: Store, h: nat, o: Owner, p: Owner)
    requires OwnerOk(lim, s, p) && h !in s.reservations && HasRoom(lim, s.registry, o)
    ensures OwnerOk(lim, Store(Reserve(s.registry, o), s.reservations[h := Reservation(o, false)]), p)
  {
    var v := Reservation(o, false);
    CountPut(s.reservations, By(p), h, v);
    CountPut(s.reservations, OpenBy(p), h, v);
    OpenAtMost(s.reservations, p);
  }

  lemma BeginTotals(lim: Limits, s: Store, h: nat, o: Owner)
    requires Totals(lim, s) && h !in s.reservations && HasRoom(lim, s.registry, o)
    ensures Totals(lim, Store(Reserve(s.registry, o), s.reservations[h := Reservation(o, false)]))
  {
    var v := Reservation(o, false);
    CountPut(s.reservations, Open, h, v);
    OpenAtMost(s.reservations, o);
    assert s.reservations[h := v].Keys == s.reservations.Keys + {h};
  }

  lemma BeginInv(lim: Limits, s: Store, h: nat, o: Owner)
    requires Inv(lim, s) && h !in s.reservations && HasRoom(lim, s.registry, o)
    ensures Inv(lim, Store(Reserve(s.registry, o), s.reservations[h := Reservation(o, false)]))
  {
    var v := Reservation(o, false);
    var z := Store(Reserve(s.registry, o), s.reservations[h := v]);
    forall p ensures OwnerOk(lim, z, p) {
      assert OwnerOk(lim, s, p);
      BeginAt(lim, s, h, o, p);
    }
    BeginTotals(lim, s, h, o);
  }

  lemma InsertAt(lim: Limits, s: Store, h: nat, id: Id, p: Owner)
    requires OwnerOk(lim, s, p) && h in s.reservations && !s.reservations[h].spent && id !in s.registry.contexts
    ensures OwnerOk(lim, Store(Publish(s.registry, id, s.reservations[h].owner),
                               s.reservations[h := s.reservations[h].(spent := true)]), p)
  {
    var v := s.reservations[h].(spent := true);
    CountPut(s.reservations, By(p), h, v);
    CountPut(s.reservations, OpenBy(p), h, v);
    CountPut(s.registry.contexts, Of(p), id, v.owner);
  }

  lemma InsertTotals(lim: Limits, s: Store, h: nat, id: Id)
    requires Totals(lim, s) && h in s.reservations && !s.reservations[h].spent && id !in s.registry.contexts
    requires !s.registry.stopped
    ensures Totals(lim, Store(Publish(s.registry, id, s.reservations[h].owner),
                              s.reservations[h := s.reservations[h].(spent := true)]))
  {
    var v := s.reservations[h].(spent := true);
    CountPut(s.reservations, Open, h, v);
    assert s.reservations[h := v].Keys == s.reservations.Keys;
    assert s.registry.contexts[id := v.owner].Keys == s.registry.contexts.Keys + {id};
  }

  lemma InsertInv(lim: Limits, s: Store, h: nat, id: Id)
    requires Inv(lim, s) && h in s.reservations && !s.reservations[h].spent && id !in s.registry.contexts
    requires !s.registry.stopped
    ensures Inv(lim, Store(Publish(s.registry, id, s.reservations[h].owner),
                           s.reservations[h := s.reservations[h].(spent := true)]))
  {
    var v := s.reservations[h].(spent := true);
    var z := Store(Publish(s.registry, id, v.owner), s.reservations[h := v]);
    forall p ensures OwnerOk(lim, z, p) {
      assert OwnerOk(lim, s, p);
      InsertAt(lim, s, h, id, p);
    }
    InsertTotals(lim, s, h, id);
  }

  lemma DropAt(lim: Limits, s: Store, h: nat, p: Owner)
    requires OwnerOk(lim, s, p) && h in s.reservations && s.registry.pendingCount > 0
    requires OwnerOk(lim, s, s.reservations[h].owner)
    ensures OwnerOk(lim, Store(Unreserve(s.registry, s.reservations[h].owner), s.reservations - {h}), p)
  {
    CountDelete(s.reservations, By(p), h);
    CountDelete(s.reservations, OpenBy(p), h);
  }

  lemma DropInv(lim: Limits, s: Store, h: nat)
    requires Inv(lim, s) && h in s.reservations
    ensures Apply(lim, s, Drop(h)).Next? && Inv(lim, Apply(lim, s, Drop(h)).store)
  {
    var o := s.reservations[h].owner;
    assert OwnerOk(lim, s, o);
    assert |s.reservations.Keys| > 0;
    var z := Store(Unreserve(s.registry, o), s.reservations - {h});
    forall p ensures OwnerOk(lim, z, p) {
      assert OwnerOk(lim, s, p);
      DropAt(lim, s, h, p);
    }
    CountDelete(s.reservations, Open, h);
    assert z.reservations.Keys == s.reservations.Keys - {h};
    assert Apply(lim, s, Drop(h)) == Next(z);
  }

  /** Removing contexts only makes room. */
  lemma ShrinkInv(lim: Limits, s: Store, r: Registry)
    requires Inv(lim, s) && r.pending == s.registry.pending && r.pendingCount == s.registry.pendingCount
    requires forall id :: id in r.contexts ==> id in s.registry.contexts && r.contexts[id] == s.registry.contexts[id]
    requires r.stopped ==> r.contexts == map[]
    ensures Inv(lim, s.(registry := r))
  {
    var z := s.(registry := r);
    SubsetSize(r.contexts.Keys, s.registry.contexts.Keys);
    forall o ensures OwnerOk(lim, z, o) {
      assert OwnerOk(lim, s, o);
      SubsetSize(Chosen(r.contexts, Of(o)), Chosen(s.registry.contexts, Of(o)));
    }
  }

  lemma StepInv(lim: Limits, s: Store, e: Event)
    requires Inv(lim, s)
    ensures !Apply(lim, s, e).Panic?
    ensures Apply(lim, s, e).Next? ==> Inv(lim, Apply(lim, s, e).store)
  {
    match e
    case Begin(h, o) => if h !in s.reservations && HasRoom(lim, s.registry, o) { BeginInv(lim, s, h, o); }
    case Insert(h, id) =>
      if h in s.reservations && !s.reservations[h].spent && id !in s.registry.contexts && !s.registry.stopped {
        InsertInv(lim, s, h, id);
      }
    case Drop(h) => if h in s.reservations { DropInv(lim, s, h); }
    case Close(id, o) => ShrinkInv(lim, s, Retain(s.registry, {id}));
    case Sweep(dead) => ShrinkInv(lim, s, Retain(s.registry, dead));
    case Shutdown => ShrinkInv(lim, s, Shut(s.registry));
  }

  lemma {:induction false} EveryRun(lim: Limits, s: Store, es: seq<Event>, z: Store)
    requires Inv(lim, s) && Reaches(lim, s, es, z)
    ensures Inv(lim, z) && forall e :: !Apply(lim, z, e).Panic?
    decreases |es|
  {
    if es == [] {
      forall e { StepInv(lim, z, e); }
    } else {
      StepInv(lim, s, es[0]);
      EveryRun(lim, Apply(lim, s, es[0]).store, es[1..], z);
    }
  }

  /**
   Capacity: from the empty store, after any interleaving, live contexts exceed neither limit, the
   pending counts are exactly the creates in progress, and no entry is left at zero.
   */
  lemma CapacityHolds(lim: Limits, es: seq<Event>, z: Store, o: Owner)
    requires Reaches(lim, Store(EMPTY, map[]), es, z)
    ensures |z.registry.contexts| <= lim.contexts && Count(z.registry.contexts, Of(o)) <= lim.perOwner
    ensures z.registry.pendingCount == |z.reservations|
    ensures Get(z.registry.pending, o) == Count(z.reservations, By(o))
              && (o in z.registry.pending ==> z.registry.pending[o] > 0)
  {
    var s := Store(EMPTY, map[]);
    forall p ensures OwnerOk(lim, s, p) {
      assert Chosen(s.reservations, By(p)) == {} && Chosen(s.reservations, OpenBy(p)) == {};
      assert Chosen(s.registry.contexts, Of(p)) == {};
    }
    assert Chosen(s.reservations, Open) == {};
    EveryRun(lim, s, es, z);
    assert OwnerOk(lim, z, o);
  }

  /**
   In every run a create is refused only when the store was stopped, when contexts and creates in
   progress fill the store, or when those of its owner fill the owner's share; otherwise it reserves.
   */
  lemma RefusedOnlyWhenFull(lim: Limits, es: seq<Event>, s: Store, h: nat, o: Owner)
    requires Reaches(lim, Store(EMPTY, map[]), es, s) && h !in s.reservations
    ensures var e := Apply(lim, s, Begin(h, o));
            && e.Next?
            && (h !in e.store.reservations <==>
                  || s.registry.stopped
                  || |s.registry.contexts| + |s.reservations| >= lim.contexts
                  || Count(s.registry.contexts, Of(o)) + Count(s.reservations, By(o)) >= lim.perOwner)
            && (h !in e.store.reservations ==> e.store == s)
            && (h in e.store.reservations ==> e.store.reservations == s.reservations[h := Reservation(o, false)])
  {
    CapacityHolds(lim, es, s, o);
  }

  /** The events that take the context `id` out of the table. */
  predicate Removes(s: Store, e: Event, id: Id) {
    match e
    case Close(other, o) => other == id && id in s.registry.contexts && s.registry.contexts[id] == o
    case Sweep(dead) => id in dead
    case Shutdown => true
    case _ => false
  }

  ghost predicate Undisturbed(lim: Limits, s: Store, es: seq<Event>, id: Id)
    decreases |es|
  {
    es != [] && Apply(lim, s, es[0]).Next? ==>
      !Removes(s, es[0], id) && Undisturbed(lim, Apply(lim, s, es[0]).store, es[1..], id)
  }

  /** A published context stays, under its owner, until its owner closes it, a sweep finds it expired or all is shut. */
  lemma {:induction false} ContextStays(lim: Limits, s: Store, es: seq<Event>, z: Store, id: Id)
    requires id in s.registry.contexts && Reaches(lim, s, es, z) && Undisturbed(lim, s, es, id)
    ensures id in z.registry.contexts && z.registry.contexts[id] == s.registry.contexts[id]
    decreases |es|
  {
    if es != [] { ContextStays(lim, Apply(lim, s, es[0]).store, es[1..], z, id); }
  }

  /** Publishing puts exactly the new context into the table, and those three events take exactly theirs out. */
  lemma TableChanges(lim: Limits, s: Store, e: Event, id: Id)
    requires Apply(lim, s, e).Next?
    ensures var t := Apply(lim, s, e).store;
            id in t.registry.contexts <==>
              || (id in s.registry.contexts && !Removes(s, e, id))
              || (e.Insert? && e.id == id && !s.registry.stopped)
    ensures e.Insert? && !s.registry.stopped ==>
              Apply(lim, s, e).store.registry.contexts[e.id] == s.reservations[e.h].owner
  {
  }

  /** After a shutdown the table is empty and stays empty, whatever creates were still under way. */
  lemma {:induction false} ShutdownIsFinal(lim: Limits, s: Store, es: seq<Event>, z: Store)
    requires s.registry.stopped && s.registry.contexts == map[] && Reaches(lim, s, es, z)
    ensures z.registry.stopped && z.registry.contexts == map[]
    decreases |es|
  {
    if es != [] { ShutdownIsFinal(lim, Apply(lim, s, es[0]).store, es[1..], z); }
  }

  // ----- the implementation that updates its fields in place -----

  class ContextStore {
    const limits: Limits
    var contexts: map<Id, Owner>
    var pending: map<Owner, nat>
    var pendingCount: nat
    var stopped: bool

    function View(): Registry
      reads this
    {
      Registry(contexts, pending, pendingCount, stopped)
    }

    constructor (limits: Limits)
      ensures this.limits == limits && View() == EMPTY
    {
      this.limits := limits;
      contexts, pending, pendingCount, stopped := map[], map[], 0, false;
    }

    /** How many contexts an owner has: the filter-and-count over the table. */
    method CountOwned(owner: Owner) returns (count: nat)
      ensures count == Count(contexts, Of(owner))
    {
      var owned := set id | id in contexts && contexts[id] == owner;
      assert owned == Chosen(contexts, Of(owner));
      count := |owned|;
    }

    method TryReserve(owner: Owner) returns (ok: bool)
      modifies this
      ensures ok <==> HasRoom(limits, old(View()), owner)
      ensures View() == if ok then Reserve(old(View()), owner) else old(View())
    {
      if stopped {
        return false;
      }
      var owned := CountOwned(owner);
      var waiting := if owner in pending then pending[owner] else 0;
      if |contexts| + pendingCount >= limits.contexts || owned + waiting >= limits.perOwner {
        return false;
      }
      pendingCount := pendingCount + 1;
      pending := pending[owner := waiting + 1];
      return true;
    }

    method Insert(id: Id, owner: Owner) returns (ok: bool)
      requires id !in contexts
      modifies this
      ensures ok <==> !old(stopped)
      ensures View() == if ok then Publish(old(View()), id, owner) else old(View())
    {
      if stopped {
        return false;
      }
      contexts := contexts[id := owner];
      return true;
    }

    method DropReservation(owner: Owner)
      requires pendingCount > 0 && (owner in pending ==> pending[owner] > 0)
      modifies this
      ensures View() == Unreserve(old(View()), owner)
    {
      pendingCount := pendingCount - 1;
      if owner in pending {
        var count := pending[owner] - 1;
        pending := if count == 0 then pending - {owner} else pending[owner := count];
      }
    }

    /** Closing is silent for missing and foreign contexts alike. */
    method Close(id: Id, owner: Owner)
      modifies this
      ensures View() == if id in old(contexts) && old(contexts)[id] == owner then Retain(old(View()), {id})
                else old(View())
    {
      if id in contexts && contexts[id] == owner {
        contexts := map other | other in contexts && other != id :: contexts[other];
      }
    }

    method StopAll()
      modifies this
      ensures View() == Shut(old(View()))
    {
      stopped := true;
      contexts := map[];
    }
  }
}
