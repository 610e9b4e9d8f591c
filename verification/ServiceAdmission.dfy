/**
 The service's admission scheduler (src/admission.rs): FIFO queues per partition, round-robin
 selection between partitions that are below their limit, global and per-partition bounds.
 The atomic sections that run under the state lock are functions from state to state; the class
 at the end is the in-place implementation, proved against them.
 */
module ServiceAdmission {
  import opened Collections

  type Key = string

  datatype Limits = Limits(active: nat, partitionActive: nat, queue: nat, partitionQueue: nat)

  datatype Partition = Partition(active: nat, waiting: seq<nat>)

  datatype State = State(
    active: nat,
    queued: nat,
    next: nat,
    partitions: map<Key, Partition>,
    order: seq<Key>)

  const EMPTY: State := State(0, 0, 0, map[], [])

  /** What a live ticket stands for: a slot, or one entry of its partition's queue. */
  datatype Hold = Slot | Place(id: nat)

  datatype Entry = Started(state: State) | Enqueued(state: State, id: nat) | Busy

  function Part(s: State, k: Key): Partition {
    if k in s.partitions then s.partitions[k] else Partition(0, [])
  }

  function Actives(ps: map<Key, Partition>): map<Key, nat> {
    map k | k in ps :: ps[k].active
  }

  function Lengths(ps: map<Key, Partition>): map<Key, nat> {
    map k | k in ps :: |ps[k].waiting|
  }

  predicate Below(lim: Limits, s: State, k: Key) {
    Part(s, k).active < lim.partitionActive
  }

  // ----- what holds in every reachable state -----

  ghost predicate PartitionOk(lim: Limits, s: State, k: Key) {
    var p := Part(s, k);
    && (k in s.partitions ==> p.active > 0 || p.waiting != [])
    && p.active <= lim.partitionActive
    && |p.waiting| <= lim.partitionQueue
    && NoDup(p.waiting)
    && (k in s.order <==> p.waiting != [])
    && forall id :: id in p.waiting ==> id < s.next
  }

  ghost predicate Valid(lim: Limits, s: State) {
    && s.active == Sum(Actives(s.partitions)) <= lim.active
    && s.queued == Sum(Lengths(s.partitions)) <= lim.queue
    && NoDup(s.order)
    && (forall k :: PartitionOk(lim, s, k))
    && Separate(s)
  }

  /** No ticket id waits in two partitions. */
  ghost predicate Separate(s: State) {
    forall k, l :: Apart(s, k, l)
  }

  ghost predicate Apart(s: State, k: Key, l: Key) {
    k != l ==> forall id :: id in Part(s, k).waiting ==> id !in Part(s, l).waiting
  }

  lemma SeparateShrinks(s: State, t: State)
    requires Separate(s)
    requires forall l, id :: id in Part(t, l).waiting ==> id in Part(s, l).waiting
    ensures Separate(t)
  {
    forall k, l ensures Apart(t, k, l) { assert Apart(s, k, l); }
  }

  /** The indexing `partitions[key]` over `order` is safe: queued keys are in the table. */
  predicate Indexed(s: State) {
    forall j :: 0 <= j < |s.order| ==> s.order[j] in s.partitions
  }

  lemma ValidIndexed(lim: Limits, s: State)
    requires Valid(lim, s)
    ensures Indexed(s)
  {
    forall j | 0 <= j < |s.order| ensures s.order[j] in s.partitions {
      assert PartitionOk(lim, s, s.order[j]);
    }
  }

  // ----- the atomic sections -----

  predicate CanStart(lim: Limits, s: State, k: Key) {
    && s.active < lim.active
    && (k in s.partitions ==> s.partitions[k].active < lim.partitionActive && s.partitions[k].waiting == [])
    && (forall j :: 0 <= j < |s.order| ==> !Below(lim, s, s.order[j]))
  }

  function Arrive(lim: Limits, s: State, k: Key): Entry {
    var p := Part(s, k);
    if CanStart(lim, s, k) then
      Started(s.(active := s.active + 1,
                 partitions := s.partitions[k := p.(active := p.active + 1)]))
    else if s.queued >= lim.queue || (k in s.partitions && |p.waiting| >= lim.partitionQueue) then
      Busy
    else
      Enqueued(s.(next := s.next + 1,
                  queued := s.queued + 1,
                  partitions := s.partitions[k := p.(waiting := p.waiting + [s.next])],
                  order := if p.waiting == [] then s.order + [k] else s.order),
               s.next)
  }

  /** `order.iter().position(...)`: the first partition below its limit, or |order|. */
  function Scan(lim: Limits, s: State, i: nat): (r: nat)
    requires i <= |s.order|
    ensures i <= r <= |s.order|
    ensures forall j :: i <= j < r ==> !Below(lim, s, s.order[j])
    ensures r < |s.order| ==> Below(lim, s, s.order[r])
    decreases |s.order| - i
  {
    if i == |s.order| || Below(lim, s, s.order[i]) then i else Scan(lim, s, i + 1)
  }

  /** Exactly when `try_start(k, id)` succeeds. */
  predicate Startable(lim: Limits, s: State, k: Key, id: nat) {
    var i := Scan(lim, s, 0);
    && s.active < lim.active
    && i < |s.order| && s.order[i] == k
    && Part(s, k).waiting != [] && Part(s, k).waiting[0] == id
  }

  function Start(lim: Limits, s: State, k: Key, id: nat): State
    requires Startable(lim, s, k, id) && s.queued > 0
  {
    var i := Scan(lim, s, 0);
    var p := Part(s, k);
    var rest := s.order[..i] + s.order[i + 1..];
    s.(active := s.active + 1,
       queued := s.queued - 1,
       partitions := s.partitions[k := Partition(p.active + 1, p.waiting[1..])],
       order := if p.waiting[1..] != [] then rest + [k] else rest)
  }

  /** What a drop needs from the table: the ticket's share is really there. */
  predicate Holds(s: State, k: Key, hold: Hold) {
    && k in s.partitions
    && match hold
       case Slot => s.partitions[k].active > 0 && s.active > 0
       case Place(id) => id in s.partitions[k].waiting && s.queued > 0
  }

  function Release(s: State, k: Key, hold: Hold): State
    requires Holds(s, k, hold)
  {
    var p := s.partitions[k];
    var q := match hold
      case Slot => p.(active := p.active - 1)
      case Place(id) => p.(waiting := Without(p.waiting, id));
    s.(active := if hold.Slot? then s.active - 1 else s.active,
       queued := if hold.Slot? then s.queued else s.queued - 1,
       order := if q.waiting == [] then Without(s.order, k) else s.order,
       partitions := if q.waiting == [] && q.active == 0 then s.partitions - {k} else s.partitions[k := q])
  }

  // ----- every section keeps the invariant -----

  /** Replacing one partition moves the two totals by that partition's change and nothing else. */
  lemma PutTotals(ps: map<Key, Partition>, k: Key, q: Partition)
    ensures Sum(Actives(ps[k := q])) == Sum(Actives(ps)) - (if k in ps then ps[k].active else 0) + q.active
    ensures Sum(Lengths(ps[k := q])) == Sum(Lengths(ps)) - (if k in ps then |ps[k].waiting| else 0) + |q.waiting|
  {
    SumUpdate(Actives(ps), k, q.active);
    SumUpdate(Lengths(ps), k, |q.waiting|);
    assert Actives(ps[k := q]) == Actives(ps)[k := q.active];
    assert Lengths(ps[k := q]) == Lengths(ps)[k := |q.waiting|];
  }

  lemma DeleteTotals(ps: map<Key, Partition>, k: Key)
    ensures Sum(Actives(ps - {k})) == Sum(Actives(ps)) - (if k in ps then ps[k].active else 0)
    ensures Sum(Lengths(ps - {k})) == Sum(Lengths(ps)) - (if k in ps then |ps[k].waiting| else 0)
  {
    SumDelete(Actives(ps), k);
    SumDelete(Lengths(ps), k);
    assert Actives(ps - {k}) == Actives(ps) - {k};
    assert Lengths(ps - {k}) == Lengths(ps) - {k};
  }

  /** A partition that holds something is counted in the totals, so the decrements cannot wrap. */
  lemma TotalsCover(s: State, k: Key)
    requires k in s.partitions
    requires s.active == Sum(Actives(s.partitions)) && s.queued == Sum(Lengths(s.partitions))
    ensures s.partitions[k].active <= s.active && |s.partitions[k].waiting| <= s.queued
  {
    SumRemove(Actives(s.partitions), k);
    SumRemove(Lengths(s.partitions), k);
  }

  lemma ArriveStartedValid(lim: Limits, s: State, k: Key)
    requires Valid(lim, s) && lim.partitionActive > 0 && Arrive(lim, s, k).Started?
    ensures Valid(lim, Arrive(lim, s, k).state)
  {
    var t := Arrive(lim, s, k).state;
    assert PartitionOk(lim, s, k);
    PutTotals(s.partitions, k, t.partitions[k]);
    assert forall l :: Part(t, l).waiting == Part(s, l).waiting;
    SeparateShrinks(s, t);
    forall l ensures PartitionOk(lim, t, l) {
      assert PartitionOk(lim, s, l);
    }
  }

  lemma ArriveEnqueuedValid(lim: Limits, s: State, k: Key)
    requires Valid(lim, s) && lim.partitionQueue > 0 && Arrive(lim, s, k).Enqueued?
    ensures Valid(lim, Arrive(lim, s, k).state)
  {
    var t := Arrive(lim, s, k).state;
    assert PartitionOk(lim, s, k);
    PutTotals(s.partitions, k, t.partitions[k]);
    NoDupAppend(Part(s, k).waiting, s.next);
    if k !in s.order { NoDupAppend(s.order, k); }
    forall l ensures PartitionOk(lim, t, l) {
      assert PartitionOk(lim, s, l);
      if l != k { assert Part(t, l) == Part(s, l); }
    }
    forall l, m ensures Apart(t, l, m) {
      assert PartitionOk(lim, s, l) && PartitionOk(lim, s, m) && Apart(s, l, m);
    }
  }

  lemma ArriveValid(lim: Limits, s: State, k: Key)
    requires Valid(lim, s) && lim.partitionActive > 0 && lim.partitionQueue > 0
    ensures !Arrive(lim, s, k).Busy? ==> Valid(lim, Arrive(lim, s, k).state)
  {
    if Arrive(lim, s, k).Started? {
      ArriveStartedValid(lim, s, k);
    } else if Arrive(lim, s, k).Enqueued? {
      ArriveEnqueuedValid(lim, s, k);
    }
  }

  /** A startable ticket is the head of a queue, so `queued - 1` cannot wrap. */
  lemma StartableQueued(lim: Limits, s: State, k: Key, id: nat)
    requires Valid(lim, s) && Startable(lim, s, k, id)
    ensures s.queued > 0 && k in s.partitions && id in s.partitions[k].waiting
  {
    assert PartitionOk(lim, s, k);
    TotalsCover(s, k);
  }

  lemma StartValid(lim: Limits, s: State, k: Key, id: nat)
    requires Valid(lim, s) && Startable(lim, s, k, id) && s.queued > 0
    ensures Valid(lim, Start(lim, s, k, id))
  {
    var t := Start(lim, s, k, id);
    var i := Scan(lim, s, 0);
    assert PartitionOk(lim, s, k);
    PutTotals(s.partitions, k, t.partitions[k]);
    StartOrder(lim, s, k, id);
    var w := Part(s, k).waiting;
    assert w == [w[0]] + w[1..];
    assert forall l, x :: x in Part(t, l).waiting ==> x in Part(s, l).waiting;
    SeparateShrinks(s, t);
    forall l ensures PartitionOk(lim, t, l) {
      assert PartitionOk(lim, s, l);
    }
  }

  /** The started partition leaves its turn and, if it still waits, goes to the back. */
  lemma StartOrder(lim: Limits, s: State, k: Key, id: nat)
    requires Valid(lim, s) && Startable(lim, s, k, id) && s.queued > 0
    ensures var t := Start(lim, s, k, id);
            && NoDup(t.order)
            && (forall l :: l != k ==> (l in t.order <==> l in s.order))
            && (k in t.order <==> Part(t, k).waiting != [])
  {
    var t := Start(lim, s, k, id);
    var i := Scan(lim, s, 0);
    var rest := s.order[..i] + s.order[i + 1..];
    assert s.order == s.order[..i] + [k] + s.order[i + 1..];
    assert k !in rest;
    assert NoDup(rest);
    assert forall l :: l in s.order <==> l in rest || l == k;
  }

  /** The order keeps exactly the keys that still wait, each once. */
  lemma ReleaseOrder(lim: Limits, s: State, k: Key, hold: Hold)
    requires Valid(lim, s) && Holds(s, k, hold)
    ensures var t := Release(s, k, hold);
            && NoDup(t.order)
            && (forall l :: l != k ==> (l in t.order <==> l in s.order))
            && (k in t.order <==> Part(t, k).waiting != [])
  {
    assert PartitionOk(lim, s, k);
    WithoutNoDup(s.order, k);
  }

  lemma ReleaseTotals(lim: Limits, s: State, k: Key, hold: Hold)
    requires Valid(lim, s) && Holds(s, k, hold)
    ensures var t := Release(s, k, hold);
            t.active == Sum(Actives(t.partitions)) && t.queued == Sum(Lengths(t.partitions))
  {
    var t := Release(s, k, hold);
    assert PartitionOk(lim, s, k);
    if hold.Place? { WithoutNoDup(s.partitions[k].waiting, hold.id); }
    if k in t.partitions { PutTotals(s.partitions, k, t.partitions[k]); } else { DeleteTotals(s.partitions, k); }
  }

  lemma ReleaseValid(lim: Limits, s: State, k: Key, hold: Hold)
    requires Valid(lim, s) && Holds(s, k, hold)
    ensures Valid(lim, Release(s, k, hold))
  {
    var t := Release(s, k, hold);
    ReleaseTotals(lim, s, k, hold);
    ReleaseOrder(lim, s, k, hold);
    forall l ensures PartitionOk(lim, t, l) {
      assert PartitionOk(lim, s, l);
      if hold.Place? && l == k { WithoutNoDup(s.partitions[k].waiting, hold.id); }
    }
    assert forall l, x :: x in Part(t, l).waiting ==> x in Part(s, l).waiting;
    SeparateShrinks(s, t);
  }

  // ----- what the sections do to the tickets that are already waiting -----

  /**
   `enter` neither starts behind a waiter's back nor creates work without waking anyone:
   no ticket, old or new, is startable after it that was not startable before.
   */
  lemma EnterStartsNobody(lim: Limits, s: State, k: Key, l: Key, id: nat)
    requires Valid(lim, s) && !Arrive(lim, s, k).Busy?
    requires Startable(lim, Arrive(lim, s, k).state, l, id)
    ensures Startable(lim, s, l, id)
  {
    var t := Arrive(lim, s, k).state;
    var i, j := Scan(lim, s, 0), Scan(lim, t, 0);
    assert PartitionOk(lim, s, k) && PartitionOk(lim, s, l);
    assert t.order[j] == l;
    if i < |s.order| {
      assert t.order[i] == s.order[i];
      assert Below(lim, t, t.order[i]);
      assert j == i;
    }
  }

  /** Spare capacity is never idle because of the queue order: some waiting ticket can take it. */
  lemma SpareCapacityIsStartable(lim: Limits, s: State, k: Key) returns (l: Key, id: nat)
    requires Valid(lim, s) && s.active < lim.active
    requires k in s.order && Below(lim, s, k)
    ensures Startable(lim, s, l, id) && id in Part(s, l).waiting
  {
    var i := Scan(lim, s, 0);
    l := s.order[i];
    assert PartitionOk(lim, s, l);
    id := Part(s, l).waiting[0];
  }

  /**
   What becomes of an arrival, in a valid state.  It starts exactly when a slot is free, its partition
   is below its limit and no waiter could use the slot; it is refused exactly when it cannot start and
   the waiters already fill the queue or its own partition's share of it.
   */
  lemma ArrivalFate(lim: Limits, s: State, k: Key)
    requires Valid(lim, s) && lim.partitionQueue > 0 && lim.partitionActive > 0
    ensures Arrive(lim, s, k).Started? <==>
            Sum(Actives(s.partitions)) < lim.active && Below(lim, s, k)
            && forall l :: Part(s, l).waiting != [] ==> !Below(lim, s, l)
    ensures Arrive(lim, s, k).Busy? <==>
            !Arrive(lim, s, k).Started?
            && (Sum(Lengths(s.partitions)) == lim.queue || |Part(s, k).waiting| == lim.partitionQueue)
  {
    assert PartitionOk(lim, s, k);
    if CanStart(lim, s, k) {
      forall l | Part(s, l).waiting != [] ensures !Below(lim, s, l) {
        assert PartitionOk(lim, s, l);
        assert s.order[IndexOf(s.order, l)] == l;
      }
    }
    if forall l :: Part(s, l).waiting != [] ==> !Below(lim, s, l) {
      forall j | 0 <= j < |s.order| ensures !Below(lim, s, s.order[j]) {
        assert PartitionOk(lim, s, s.order[j]);
      }
    }
  }

  /** An arrival changes its own partition only: one more slot, or its new id at the end of the queue. */
  lemma ArrivalPlace(lim: Limits, s: State, k: Key, l: Key)
    requires !Arrive(lim, s, k).Busy?
    ensures var e := Arrive(lim, s, k);
            && (l != k ==> Part(e.state, l) == Part(s, l))
            && (e.Started? ==> Part(e.state, k) == Partition(Part(s, k).active + 1, Part(s, k).waiting))
            && (e.Enqueued? ==> Part(e.state, k) == Partition(Part(s, k).active, Part(s, k).waiting + [e.id]))
  {
  }

  /** Every queued partition holds at least one queue entry, so turns are bounded by the queue limit. */
  lemma OrderBounded(lim: Limits, s: State)
    requires Valid(lim, s)
    ensures |s.order| <= lim.queue
  {
    var keys := set k | k in s.order;
    forall k | k in keys ensures k in Lengths(s.partitions) && Lengths(s.partitions)[k] > 0 {
      assert PartitionOk(lim, s, k);
    }
    SumCoversSupport(Lengths(s.partitions), keys);
    NoDupBounded(s.order, keys);
  }

  // ----- the implementation that updates its fields in place -----

  datatype Outcome = Admitted(hold: Hold) | Rejected

  class Admission {
    const limits: Limits
    var active: nat
    var queued: nat
    var next: nat
    var partitions: map<Key, Partition>
    var order: seq<Key>

    function View(): State
      reads this
    {
      State(active, queued, next, partitions, order)
    }

    ghost predicate Consistent()
      reads this
    {
      Valid(limits, View()) && limits.partitionActive > 0 && limits.partitionQueue > 0
    }

    constructor (limits: Limits)
      requires limits.partitionActive > 0 && limits.partitionQueue > 0
      ensures Consistent() && this.limits == limits && View() == EMPTY
    {
      this.limits := limits;
      active, queued, next, partitions, order := 0, 0, 0, map[], [];
      new;
      assert Actives(partitions) == map[] && Lengths(partitions) == map[];
    }

    /** The position of the first queued partition below its limit. */
    method Position() returns (index: nat)
      requires Consistent()
      ensures index == Scan(limits, View(), 0)
    {
      ValidIndexed(limits, View());
      index := 0;
      while index < |order| && partitions[order[index]].active >= limits.partitionActive
        invariant index <= |order|
        invariant Scan(limits, View(), 0) == Scan(limits, View(), index)
      {
        index := index + 1;
      }
    }

    method Enter(key: Key) returns (outcome: Outcome)
      requires Consistent()
      modifies this
      ensures Consistent()
      ensures match Arrive(limits, old(View()), key)
              case Started(s) => View() == s && outcome == Admitted(Slot)
              case Enqueued(s, id) => View() == s && outcome == Admitted(Place(id))
              case Busy => View() == old(View()) && outcome == Rejected
    {
      ArriveValid(limits, View(), key);
      ghost var after := Arrive(limits, View(), key);
      var index := Position();
      var p := if key in partitions then partitions[key] else Partition(0, []);
      var canStart := active < limits.active && index == |order|
        && (key !in partitions || (p.active < limits.partitionActive && p.waiting == []));
      assert canStart == CanStart(limits, View(), key);
      if canStart {
        active := active + 1;
        partitions := partitions[key := p.(active := p.active + 1)];
        outcome := Admitted(Slot);
        assert View() == after.state;
      } else if queued >= limits.queue || (key in partitions && |p.waiting| >= limits.partitionQueue) {
        outcome := Rejected;
      } else {
        var id := Append(key, p);
        outcome := Admitted(Place(id));
      }
    }

    /** The queueing half of `enter`. */
    method Append(key: Key, p: Partition) returns (id: nat)
      requires Arrive(limits, View(), key).Enqueued? && p == Part(View(), key)
      modifies this
      ensures Arrive(limits, old(View()), key) == Enqueued(View(), id)
    {
      id := next;
      next := next + 1;
      partitions := partitions[key := p.(waiting := p.waiting + [id])];
      if p.waiting == [] {
        order := order + [key];
      }
      queued := queued + 1;
    }

    method TryStart(key: Key, id: nat) returns (started: bool)
      requires Consistent()
      modifies this
      ensures Consistent()
      ensures started <==> Startable(limits, old(View()), key, id)
      ensures started ==> old(queued) > 0 && View() == Start(limits, old(View()), key, id)
      ensures !started ==> View() == old(View())
    {
      if active >= limits.active {
        return false;
      }
      var index := Position();
      if index == |order| {
        return false;
      }
      assert PartitionOk(limits, View(), order[index]);
      if order[index] != key || partitions[key].waiting[0] != id {
        assert !Startable(limits, View(), key, id);
        return false;
      }
      StartableQueued(limits, View(), key, id);
      Commit(index, key, id);
      started := true;
    }

    /** The successful half of `try_start`, after the two tests passed. */
    method Commit(index: nat, key: Key, ghost id: nat)
      requires Consistent() && Startable(limits, View(), key, id) && queued > 0
      requires index == Scan(limits, View(), 0) && key in partitions
      modifies this
      ensures Consistent() && View() == Start(limits, old(View()), key, id)
    {
      StartValid(limits, View(), key, id);
      ghost var after := Start(limits, View(), key, id);
      order := order[..index] + order[index + 1..];
      var p := partitions[key];
      partitions := partitions[key := Partition(p.active + 1, p.waiting[1..])];
      if p.waiting[1..] != [] {
        order := order + [key];
      }
      active := active + 1;
      queued := queued - 1;
      assert View() == after;
    }

    method DropTicket(key: Key, hold: Hold)
      requires Consistent() && Holds(View(), key, hold)
      modifies this
      ensures Consistent() && View() == Release(old(View()), key, hold)
    {
      ReleaseValid(limits, View(), key, hold);
      ghost var after := Release(View(), key, hold);
      var p := partitions[key];
      match hold {
        case Slot => p := p.(active := p.active - 1);
        case Place(id) => p := p.(waiting := Without(p.waiting, id));
      }
      if p.waiting == [] {
        order := Without(order, key);
      }
      if p.waiting == [] && p.active == 0 {
        partitions := partitions - {key};
      } else {
        partitions := partitions[key := p];
      }
      if hold.Slot? {
        active := active - 1;
      } else {
        queued := queued - 1;
      }
      assert View() == after;
    }
  }
}
