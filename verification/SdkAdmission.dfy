/**
 The SDK's admission (packages/typescript/src/concurrency.ts): a FIFO over all waiters in which a
 saturated partition blocks nobody else, dispatched in one pass after every change. Functions
 describe each synchronous operation; the class at the end runs them on its fields.
 */
module SdkAdmission {
  import opened Collections

  type Key = string

  datatype Limits = Limits(concurrent: nat, perPartition: nat, queued: nat, queuedPerPartition: nat)

  function Up(m: map<Key, nat>, k: Key): map<Key, nat> {
    m[k := Get(m, k) + 1]
  }

  /** Decrement, deleting the entry at zero. */
  function Down(m: map<Key, nat>, k: Key): map<Key, nat>
    requires Get(m, k) > 0
  {
    if m[k] == 1 then m - {k} else m[k := m[k] - 1]
  }

  lemma UpSum(m: map<Key, nat>, k: Key)
    ensures Sum(Up(m, k)) == Sum(m) + 1
  {
    SumUpdate(m, k, Get(m, k) + 1);
  }

  lemma DownSum(m: map<Key, nat>, k: Key)
    requires Get(m, k) > 0
    ensures Sum(Down(m, k)) == Sum(m) - 1
  {
    if m[k] == 1 { SumDelete(m, k); } else { SumUpdate(m, k, m[k] - 1); }
  }

  // ----- a counted pool of handles, each returned at most once -----

  /**
   Slots, or discovery reservations: a total, a count per partition, the handles not given back yet
   and those given back. A handle's closure is the pair (handle, partition) with its released flag.
   */
  datatype Pool = Pool(total: nat, per: map<Key, nat>, held: map<nat, Key>, returned: set<nat>)

  const EMPTY_POOL: Pool := Pool(0, map[], map[], {})

  function Take(p: Pool, h: nat, k: Key): Pool {
    Pool(p.total + 1, Up(p.per, k), p.held[h := k], p.returned)
  }

  /** The first call of a handle's release closure; every later call finds it released. */
  function Give(p: Pool, h: nat): Pool {
    if h !in p.held || p.total == 0 || Get(p.per, p.held[h]) == 0 then p
    else Pool(p.total - 1, Down(p.per, p.held[h]), p.held - {h}, p.returned + {h})
  }

  function Is(k: Key): Key -> bool { (l: Key) => l == k }

  ghost predicate PoolAt(p: Pool, k: Key) {
    Get(p.per, k) == Count(p.held, Is(k)) && (k in p.per ==> p.per[k] > 0)
  }

  ghost predicate PoolOk(p: Pool) {
    && p.total == Sum(p.per) == |p.held|
    && p.held.Keys !! p.returned
    && forall k :: PoolAt(p, k)
  }

  lemma TakeOk(p: Pool, h: nat, k: Key)
    requires PoolOk(p) && h !in p.held && h !in p.returned
    ensures PoolOk(Take(p, h, k))
  {
    var q := Take(p, h, k);
    UpSum(p.per, k);
    assert q.held.Keys == p.held.Keys + {h};
    forall l ensures PoolAt(q, l) {
      assert PoolAt(p, l);
      CountPut(p.held, Is(l), h, k);
    }
  }

  lemma GiveAt(p: Pool, h: nat, l: Key)
    requires h in p.held && Get(p.per, p.held[h]) > 0 && PoolAt(p, l)
    requires p.total > 0
    ensures PoolAt(Give(p, h), l)
  {
    CountDelete(p.held, Is(l), h);
  }

  /** Giving back a held handle really takes it out: the guards that protect the counters never fire. */
  lemma GiveOk(p: Pool, h: nat)
    requires PoolOk(p)
    ensures PoolOk(Give(p, h))
    ensures h in p.held ==> Give(p, h).held == p.held - {h} && Give(p, h).returned == p.returned + {h}
    ensures h in p.held ==> Give(p, h).total == p.total - 1 && Give(p, h).per == Down(p.per, p.held[h])
  {
    if h in p.held {
      var k := p.held[h];
      assert PoolAt(p, k);
      assert h in Chosen(p.held, Is(k));
      assert p.held.Keys == (p.held - {h}).Keys + {h};
      var q := Give(p, h);
      DownSum(p.per, k);
      forall l ensures PoolAt(q, l) { GiveAt(p, h, l); }
    }
  }

  // ----- the admission state -----

  datatype Waiter = Waiter(id: nat, partition: Key, aborted: bool)

  datatype State = State(limits: Limits, slots: Pool, queuedBy: map<Key, nat>, waiting: seq<Waiter>)

  predicate Available(s: State, k: Key) {
    s.slots.total < s.limits.concurrent && Get(s.slots.per, k) < s.limits.perPartition
  }

  function Occupy(s: State, id: nat, k: Key): State {
    s.(slots := Take(s.slots, id, k))
  }

  function Remove(s: State, i: nat): State
    requires i < |s.waiting| && Get(s.queuedBy, s.waiting[i].partition) > 0
  {
    s.(waiting := s.waiting[..i] + s.waiting[i + 1..], queuedBy := Down(s.queuedBy, s.waiting[i].partition))
  }

  /** How many waiters a partition has. */
  function NumOf(ws: seq<Waiter>, k: Key): nat {
    if ws == [] then 0 else (if ws[0].partition == k then 1 else 0) + NumOf(ws[1..], k)
  }

  /** A partition's own queue, in arrival order. */
  function QueuedOf(ws: seq<Waiter>, k: Key): seq<Waiter> {
    if ws == [] then []
    else (if ws[0].partition == k then [ws[0]] else []) + QueuedOf(ws[1..], k)
  }

  ghost predicate QueueAt(s: State, k: Key) {
    Get(s.queuedBy, k) == NumOf(s.waiting, k) && (k in s.queuedBy ==> s.queuedBy[k] > 0)
  }

  ghost predicate QueueOk(s: State) {
    && |s.waiting| == Sum(s.queuedBy)
    && (forall k :: QueueAt(s, k))
    && (forall i, j :: 0 <= i < j < |s.waiting| ==> s.waiting[i].id != s.waiting[j].id)
  }

  /** A waiter is neither granted nor has it been. */
  ghost predicate Pending(s: State, i: nat)
    requires i < |s.waiting|
  {
    s.waiting[i].id !in s.slots.held && s.waiting[i].id !in s.slots.returned
  }

  /** Between operations nobody waits for something available. */
  ghost predicate QuietUpTo(s: State, n: nat)
    requires n <= |s.waiting|
  {
    forall i :: 0 <= i < n ==> !Available(s, s.waiting[i].partition)
  }

  ghost predicate Counted(s: State) {
    PoolOk(s.slots) && QueueOk(s) && forall i :: 0 <= i < |s.waiting| ==> Pending(s, i)
  }

  ghost predicate Inv(s: State) {
    Counted(s) && QuietUpTo(s, |s.waiting|)
  }

  lemma {:induction false} NumOfAppend(a: seq<Waiter>, b: seq<Waiter>, k: Key)
    ensures NumOf(a + b, k) == NumOf(a, k) + NumOf(b, k)
  {
    if a == [] {
      assert a + b == b;
    } else {
      NumOfAppend(a[1..], b, k);
      assert (a + b)[1..] == a[1..] + b;
    }
  }

  lemma NumOfCut(ws: seq<Waiter>, i: nat, k: Key)
    requires i < |ws|
    ensures NumOf(ws, k) == NumOf(ws[..i] + ws[i + 1..], k) + (if ws[i].partition == k then 1 else 0)
  {
    NumOfAppend(ws[..i], ws[i + 1..], k);
    NumOfAppend(ws[..i], ws[i..], k);
    assert ws == ws[..i] + ws[i..] && ws[i..][1..] == ws[i + 1..];
  }

  /** Taking a waiter out of the line takes it out of its own queue: from the front if none was before it. */
  lemma {:induction false} QueuedOfCut(ws: seq<Waiter>, i: nat, k: Key)
    requires i < |ws|
    requires ws[i].partition == k ==> NumOf(ws[..i], k) == 0
    ensures var cut := ws[..i] + ws[i + 1..];
            QueuedOf(ws, k) == (if ws[i].partition == k then [ws[i]] else []) + QueuedOf(cut, k)
  {
    var cut := ws[..i] + ws[i + 1..];
    if i == 0 {
      assert cut == ws[1..];
    } else {
      assert ws[..i][0] == ws[0] && ws[..i][1..] == ws[1..][..i - 1];
      QueuedOfCut(ws[1..], i - 1, k);
      assert cut[0] == ws[0] && cut[1..] == ws[1..][..i - 1] + ws[1..][i..];
    }
  }

  lemma RemoveAt(s: State, i: nat, l: Key)
    requires i < |s.waiting| && QueueAt(s, l) && Get(s.queuedBy, s.waiting[i].partition) > 0
    ensures QueueAt(Remove(s, i), l)
  {
    NumOfCut(s.waiting, i, l);
  }

  lemma RemoveOk(s: State, i: nat)
    requires Counted(s) && i < |s.waiting|
    ensures Get(s.queuedBy, s.waiting[i].partition) > 0 && Counted(Remove(s, i))
  {
    var k := s.waiting[i].partition;
    NumOfCut(s.waiting, i, k);
    assert QueueAt(s, k);
    var t := Remove(s, i);
    DownSum(s.queuedBy, k);
    forall l ensures QueueAt(t, l) {
      assert QueueAt(s, l);
      RemoveAt(s, i, l);
    }
    forall j | 0 <= j < |t.waiting| ensures Pending(t, j) {
      assert Pending(s, if j < i then j else j + 1);
    }
  }

  lemma OccupyOk(s: State, id: nat, k: Key)
    requires Counted(s) && id !in s.slots.held && id !in s.slots.returned
    requires forall i :: 0 <= i < |s.waiting| ==> s.waiting[i].id != id
    ensures Counted(Occupy(s, id, k))
  {
    TakeOk(s.slots, id, k);
    var t := Occupy(s, id, k);
    forall l ensures QueueAt(t, l) { assert QueueAt(s, l); }
    forall j | 0 <= j < |t.waiting| ensures Pending(t, j) { assert Pending(s, j); }
  }

  // ----- dispatch -----

  /** One visit of the pass: skip, reject an aborted waiter, or grant. The flag tells whether it stayed. */
  function Visit(s: State, i: nat): (State, bool)
    requires i < |s.waiting| && Get(s.queuedBy, s.waiting[i].partition) > 0
  {
    var w := s.waiting[i];
    if !Available(s, w.partition) then (s, true)
    else if w.aborted then (Remove(s, i), false)
    else (Occupy(Remove(s, i), w.id, w.partition), false)
  }

  /** `for (const item of this.waiting)`: each waiter is visited once, in order, from position `i`. */
  function Pass(s: State, i: nat): State
    decreases |s.waiting| - i
  {
    if i >= |s.waiting| || Get(s.queuedBy, s.waiting[i].partition) == 0 then s
    else
      var (t, stays) := Visit(s, i);
      if stays then Pass(t, i + 1) else Pass(t, i)
  }

  lemma VisitOk(s: State, i: nat)
    requires Counted(s) && i < |s.waiting| && QuietUpTo(s, i)
    ensures Get(s.queuedBy, s.waiting[i].partition) > 0
    ensures var (t, stays) := Visit(s, i);
            var j := if stays then i + 1 else i;
            Counted(t) && j <= |t.waiting| && QuietUpTo(t, j) && t.waiting[..i] == s.waiting[..i]
            && |t.waiting| - j < |s.waiting| - i
  {
    RemoveOk(s, i);
    var w := s.waiting[i];
    var t := Remove(s, i);
    assert Pending(s, i);
    assert forall l :: Available(Occupy(t, w.id, w.partition), l) ==> Available(s, l);
    if !w.aborted { OccupyOk(t, w.id, w.partition); }
  }

  /** One pass suffices: after it no remaining waiter's partition is available. */
  lemma {:induction false} PassOk(s: State, i: nat)
    requires Counted(s) && i <= |s.waiting| && QuietUpTo(s, i)
    ensures Inv(Pass(s, i))
    decreases |s.waiting| - i
  {
    if i < |s.waiting| {
      VisitOk(s, i);
      var (t, stays) := Visit(s, i);
      PassOk(t, if stays then i + 1 else i);
    }
  }

  ghost predicate Suffix(a: seq<Waiter>, b: seq<Waiter>) {
    |a| <= |b| && b[|b| - |a|..] == a
  }

  /** Nobody of partition `k` was passed over while `k` was still available. */
  ghost predicate InTurn(s: State, i: nat, k: Key)
    requires i <= |s.waiting|
  {
    Available(s, k) ==> NumOf(s.waiting[..i], k) == 0
  }

  lemma VisitFifo(s: State, i: nat, k: Key)
    requires Counted(s) && i < |s.waiting| && QuietUpTo(s, i) && InTurn(s, i, k)
    requires Get(s.queuedBy, s.waiting[i].partition) > 0
    ensures var (t, stays) := Visit(s, i);
            var j := if stays then i + 1 else i;
            j <= |t.waiting| && InTurn(t, j, k) && Suffix(QueuedOf(t.waiting, k), QueuedOf(s.waiting, k))
  {
    var (t, stays) := Visit(s, i);
    var w := s.waiting[i];
    if stays {
      assert s.waiting[..i + 1] == s.waiting[..i] + [w];
      NumOfAppend(s.waiting[..i], [w], k);
    } else {
      assert t.waiting == s.waiting[..i] + s.waiting[i + 1..];
      assert t.waiting[..i] == s.waiting[..i];
      assert Available(t, k) ==> Available(s, k);
      QueuedOfCut(s.waiting, i, k);
    }
  }

  /** Within a partition the pass serves in arrival order: what is left is the tail of the queue. */
  lemma {:induction false} PassFifo(s: State, i: nat, k: Key)
    requires Counted(s) && i <= |s.waiting| && QuietUpTo(s, i) && InTurn(s, i, k)
    ensures Suffix(QueuedOf(Pass(s, i).waiting, k), QueuedOf(s.waiting, k))
    decreases |s.waiting| - i
  {
    if i < |s.waiting| {
      VisitOk(s, i);
      VisitFifo(s, i, k);
      var (t, stays) := Visit(s, i);
      PassFifo(t, if stays then i + 1 else i, k);
    }
  }

  /** No count grows past the limits in force. */
  ghost predicate Within(s: State, t: State) {
    && t.limits == s.limits
    && (t.slots.total > s.slots.total ==> t.slots.total <= t.limits.concurrent)
    && forall k :: WithinAt(s, t, k)
  }

  ghost predicate WithinAt(s: State, t: State, k: Key) {
    Get(t.slots.per, k) > Get(s.slots.per, k) ==> Get(t.slots.per, k) <= t.limits.perPartition
  }

  lemma {:induction false} PassWithin(s: State, i: nat)
    ensures Within(s, Pass(s, i)) && Pass(s, i).slots.total >= s.slots.total
    ensures forall k :: Get(Pass(s, i).slots.per, k) >= Get(s.slots.per, k)
    decreases |s.waiting| - i
  {
    if i < |s.waiting| && Get(s.queuedBy, s.waiting[i].partition) > 0 {
      var (t, stays) := Visit(s, i);
      var z := Pass(s, i);
      PassWithin(t, if stays then i + 1 else i);
      forall k ensures WithinAt(s, z, k) { assert WithinAt(t, z, k); }
    }
  }

  // ----- who is waiting, who was granted -----

  ghost function Ids(s: State): set<nat> {
    set w | w in s.waiting :: w.id
  }

  /** A pass moves waiters into slots or out of the queue, and touches nobody else. */
  ghost predicate Moves(s: State, t: State) {
    && Ids(t) <= Ids(s)
    && t.slots.returned == s.slots.returned
    && (forall h :: h in s.slots.held ==> h in t.slots.held && t.slots.held[h] == s.slots.held[h])
    && (forall h :: h in t.slots.held && h !in s.slots.held ==> h in Ids(s))
  }

  lemma RemoveMoves(s: State, i: nat)
    requires i < |s.waiting| && Get(s.queuedBy, s.waiting[i].partition) > 0
    ensures Ids(Remove(s, i)) <= Ids(s) && Ids(s) <= Ids(Remove(s, i)) + {s.waiting[i].id}
  {
    var t := Remove(s, i);
    forall w | w in t.waiting ensures w in s.waiting { }
    forall w | w in s.waiting && w != s.waiting[i] ensures w in t.waiting {
      var j :| 0 <= j < |s.waiting| && s.waiting[j] == w;
      assert t.waiting[if j < i then j else j - 1] == w;
    }
  }

  lemma RemovedIsGone(s: State, i: nat)
    requires Counted(s) && i < |s.waiting| && Get(s.queuedBy, s.waiting[i].partition) > 0
    ensures s.waiting[i].id !in Ids(Remove(s, i))
  {
    var t := Remove(s, i);
    forall w | w in t.waiting ensures w.id != s.waiting[i].id {
      var j :| 0 <= j < |t.waiting| && t.waiting[j] == w;
      assert w == s.waiting[if j < i then j else j + 1];
    }
  }

  lemma VisitMoves(s: State, i: nat)
    requires Counted(s) && i < |s.waiting| && Get(s.queuedBy, s.waiting[i].partition) > 0
    ensures Moves(s, Visit(s, i).0)
  {
    RemoveMoves(s, i);
    assert Pending(s, i);
    assert s.waiting[i] in s.waiting;
  }

  lemma {:induction false} PassMoves(s: State, i: nat)
    requires Counted(s) && i <= |s.waiting| && QuietUpTo(s, i)
    ensures Moves(s, Pass(s, i))
    decreases |s.waiting| - i
  {
    if i < |s.waiting| {
      VisitOk(s, i);
      VisitMoves(s, i);
      var (t, stays) := Visit(s, i);
      PassMoves(t, if stays then i + 1 else i);
    }
  }

  // ----- the operations -----

  datatype Asked = Granted(state: State) | Queued(state: State) | Busy

  function Acquire(s: State, id: nat, k: Key): Asked {
    if Available(s, k) && k !in s.queuedBy then Granted(Occupy(s, id, k))
    else if |s.waiting| >= s.limits.queued || Get(s.queuedBy, k) >= s.limits.queuedPerPartition then Busy
    else Queued(s.(waiting := s.waiting + [Waiter(id, k, false)], queuedBy := Up(s.queuedBy, k)))
  }

  /** The release closure: the first call frees the slot and dispatches, later calls do nothing. */
  function Release(s: State, h: nat): State {
    if h in s.slots.held then Pass(Freed(s, h), 0) else s
  }

  /** The position of a waiter, or the length of the queue. */
  function Find(ws: seq<Waiter>, id: nat): (i: nat)
    ensures i <= |ws| && (i < |ws| ==> ws[i].id == id) && (i == |ws| ==> forall w :: w in ws ==> w.id != id)
  {
    if ws == [] || ws[0].id == id then 0
    else assert ws == [ws[0]] + ws[1..]; 1 + Find(ws[1..], id)
  }

  /** The abort listener of a waiter: leave the queue, then dispatch. */
  function Abandon(s: State, id: nat): State {
    var i := Find(s.waiting, id);
    if i == |s.waiting| || Get(s.queuedBy, s.waiting[i].partition) == 0 then s else Pass(Remove(s, i), 0)
  }

  /** The signal of a waiter's deadline fires before its listener runs. */
  function Signal(s: State, id: nat): State {
    s.(waiting := seq(|s.waiting|, i requires 0 <= i < |s.waiting| =>
      if s.waiting[i].id == id then s.waiting[i].(aborted := true) else s.waiting[i]))
  }

  function Least(a: nat, b: nat): nat { if a <= b then a else b }

  function Constrain(s: State, l: Limits): State {
    s.(limits := Limits(Least(s.limits.concurrent, l.concurrent), Least(s.limits.perPartition, l.perPartition),
                        Least(s.limits.queued, l.queued), Least(s.limits.queuedPerPartition, l.queuedPerPartition)))
  }

  function New(limits: Limits): State { State(limits, EMPTY_POOL, map[], []) }

  lemma NewInv(limits: Limits)
    ensures Inv(New(limits))
  {
    forall p: Key -> bool ensures Count(EMPTY_POOL.held, p) == 0 { assert Chosen(EMPTY_POOL.held, p) == {}; }
    assert forall k :: PoolAt(EMPTY_POOL, k);
    assert forall k :: QueueAt(New(limits), k);
  }

  /** A request queues only for something unavailable, so the queue stays quiet without a dispatch. */
  lemma AcquireInv(s: State, id: nat, k: Key)
    requires Inv(s) && id !in s.slots.held && id !in s.slots.returned && id !in Ids(s)
    ensures !Acquire(s, id, k).Busy? ==> Inv(Acquire(s, id, k).state)
    ensures !Acquire(s, id, k).Busy? ==> Within(s, Acquire(s, id, k).state)
    ensures Acquire(s, id, k).Queued? ==> !Available(s, k)
  {
    forall i | 0 <= i < |s.waiting| ensures s.waiting[i].id != id { assert s.waiting[i] in s.waiting; }
    var a := Acquire(s, id, k);
    if a.Granted? {
      OccupyOk(s, id, k);
      assert forall l :: Available(a.state, l) ==> Available(s, l);
      forall l ensures WithinAt(s, a.state, l) { }
    } else if a.Queued? {
      EnqueueInv(s, id, k);
      forall l ensures WithinAt(s, a.state, l) { }
    }
  }

  lemma EnqueueInv(s: State, id: nat, k: Key)
    requires Inv(s) && id !in s.slots.held && id !in s.slots.returned && Acquire(s, id, k).Queued?
    requires forall i :: 0 <= i < |s.waiting| ==> s.waiting[i].id != id
    ensures !Available(s, k) && Inv(Acquire(s, id, k).state)
  {
    var t := Acquire(s, id, k).state;
    assert QueueAt(s, k);
    if Available(s, k) { QueuedMember(s.waiting, k); }
    UpSum(s.queuedBy, k);
    forall l ensures QueueAt(t, l) {
      assert QueueAt(s, l);
      NumOfAppend(s.waiting, [Waiter(id, k, false)], l);
    }
    forall j | 0 <= j < |t.waiting| ensures Pending(t, j) { if j < |s.waiting| { assert Pending(s, j); } }
  }

  lemma {:induction false} QueuedMember(ws: seq<Waiter>, k: Key)
    requires NumOf(ws, k) > 0
    ensures exists i :: 0 <= i < |ws| && ws[i].partition == k
  {
    if ws[0].partition != k {
      QueuedMember(ws[1..], k);
      var i :| 0 <= i < |ws[1..]| && ws[1..][i].partition == k;
      assert ws[i + 1].partition == k;
    }
  }

  lemma ReleaseInv(s: State, h: nat)
    requires Inv(s)
    ensures Inv(Release(s, h)) && h !in Release(s, h).slots.held
    ensures h in s.slots.held ==> h in Release(s, h).slots.returned
  {
    if h in s.slots.held {
      var t := Freed(s, h);
      FreedIds(s, h);
      GiveOk(s.slots, h);
      PassOk(t, 0);
      PassMoves(t, 0);
    }
  }

  function Freed(s: State, h: nat): State { s.(slots := Give(s.slots, h)) }

  lemma FreedIds(s: State, h: nat)
    requires Counted(s) && h in s.slots.held
    ensures Counted(Freed(s, h)) && h !in Ids(Freed(s, h)) && Ids(Freed(s, h)) == Ids(s)
    ensures QuietUpTo(Freed(s, h), 0)
  {
    GiveOk(s.slots, h);
    var t := Freed(s, h);
    forall l ensures QueueAt(t, l) { assert QueueAt(s, l); }
    forall j | 0 <= j < |t.waiting| ensures Pending(t, j) && t.waiting[j].id != h { assert Pending(s, j); }
  }

  lemma AbandonInv(s: State, id: nat)
    requires Inv(s)
    ensures Inv(Abandon(s, id)) && id !in Ids(Abandon(s, id)) && Moves(s, Abandon(s, id))
  {
    var i := Find(s.waiting, id);
    if i < |s.waiting| {
      RemoveOk(s, i);
      var t := Remove(s, i);
      RemoveMoves(s, i);
      RemovedIsGone(s, i);
      PassOk(t, 0);
      PassMoves(t, 0);
    }
  }

  lemma SignalInv(s: State, id: nat)
    requires Inv(s)
    ensures Inv(Signal(s, id)) && Ids(Signal(s, id)) == Ids(s)
  {
    var t := Signal(s, id);
    forall k ensures QueueAt(t, k) {
      assert QueueAt(s, k);
      SameQueues(s.waiting, t.waiting, k);
    }
    forall j | 0 <= j < |t.waiting| ensures Pending(t, j) { assert Pending(s, j); }
    forall w | w in s.waiting ensures w.id in Ids(t) {
      var j :| 0 <= j < |s.waiting| && s.waiting[j] == w;
      assert t.waiting[j] in t.waiting;
    }
    forall w | w in t.waiting ensures w.id in Ids(s) {
      var j :| 0 <= j < |t.waiting| && t.waiting[j] == w;
      assert s.waiting[j] in s.waiting;
    }
  }

  lemma {:induction false} SameQueues(a: seq<Waiter>, b: seq<Waiter>, k: Key)
    requires |a| == |b| && forall i :: 0 <= i < |a| ==> a[i].partition == b[i].partition
    ensures NumOf(a, k) == NumOf(b, k)
  {
    if a != [] { SameQueues(a[1..], b[1..], k); }
  }

  lemma ConstrainInv(s: State, l: Limits)
    requires Inv(s)
    ensures Inv(Constrain(s, l))
  {
    var t := Constrain(s, l);
    forall k ensures QueueAt(t, k) { assert QueueAt(s, k); }
    forall j | 0 <= j < |t.waiting| ensures Pending(t, j) { assert Pending(s, j); }
  }

  // ----- what an operation comes to -----

  /**
   The fate of a request between operations: granted exactly when its partition has a free slot within
   both limits, refused exactly when it is not and the waiters fill the queue or the partition's share.
   */
  lemma AcquireFate(s: State, id: nat, k: Key)
    requires Inv(s)
    ensures Acquire(s, id, k).Granted? <==>
            |s.slots.held| < s.limits.concurrent && Count(s.slots.held, Is(k)) < s.limits.perPartition
    ensures Acquire(s, id, k).Busy? <==>
            && !Acquire(s, id, k).Granted?
            && (|s.waiting| >= s.limits.queued || |QueuedOf(s.waiting, k)| >= s.limits.queuedPerPartition)
    ensures Acquire(s, id, k).Queued? ==> Acquire(s, id, k).state.waiting == s.waiting + [Waiter(id, k, false)]
  {
    assert PoolAt(s.slots, k) && QueueAt(s, k);
    NumOfIsLength(s.waiting, k);
    if Available(s, k) && k in s.queuedBy {
      var i := SomeQueued(s.waiting, k);
    }
  }

  lemma {:induction false} NumOfIsLength(ws: seq<Waiter>, k: Key)
    ensures NumOf(ws, k) == |QueuedOf(ws, k)|
  {
    if ws != [] { NumOfIsLength(ws[1..], k); }
  }

  lemma {:induction false} SomeQueued(ws: seq<Waiter>, k: Key) returns (i: nat)
    requires NumOf(ws, k) > 0
    ensures i < |ws| && ws[i].partition == k
  {
    if ws[0].partition == k {
      i := 0;
    } else {
      var j := SomeQueued(ws[1..], k);
      i := j + 1;
    }
  }

  /** Limits only tighten, and no further than asked. */
  lemma ConstrainTightens(s: State, l: Limits)
    ensures var t := Constrain(s, l).limits;
            && t.concurrent <= s.limits.concurrent && t.concurrent <= l.concurrent
            && t.perPartition <= s.limits.perPartition && t.perPartition <= l.perPartition
            && t.queued <= s.limits.queued && t.queued <= l.queued
            && t.queuedPerPartition <= s.limits.queuedPerPartition && t.queuedPerPartition <= l.queuedPerPartition
            && t.concurrent in {s.limits.concurrent, l.concurrent} && t.queued in {s.limits.queued, l.queued}
            && t.perPartition in {s.limits.perPartition, l.perPartition}
            && t.queuedPerPartition in {s.limits.queuedPerPartition, l.queuedPerPartition}
    ensures Constrain(s, l).slots == s.slots && Constrain(s, l).waiting == s.waiting
  {
  }

  // ----- the implementation that updates its fields in place -----

  class Admission {
    var limits: Limits
    var active: nat
    var byPartition: map<Key, nat>
    var queuedByPartition: map<Key, nat>
    var waiting: seq<Waiter>
    /** The grants whose release closure has not run, and (for the proofs) those whose closure has. */
    var held: map<nat, Key>
    ghost var returned: set<nat>

    ghost function View(): State
      reads this
    {
      State(limits, Pool(active, byPartition, held, returned), queuedByPartition, waiting)
    }

    constructor (limits: Limits)
      ensures View() == New(limits) && Inv(View())
    {
      this.limits := limits;
      active, byPartition, queuedByPartition, waiting, held, returned := 0, map[], map[], [], map[], {};
      new;
      NewInv(limits);
    }

    method DoOccupy(id: nat, partition: Key)
      modifies this
      ensures View() == Occupy(old(View()), id, partition)
    {
      active := active + 1;
      byPartition := byPartition[partition := Get(byPartition, partition) + 1];
      held := held[id := partition];
    }

    method DoRemove(i: nat)
      requires i < |waiting| && Get(queuedByPartition, waiting[i].partition) > 0
      modifies this
      ensures View() == Remove(old(View()), i)
    {
      var partition := waiting[i].partition;
      var remaining := queuedByPartition[partition] - 1;
      queuedByPartition := if remaining == 0 then queuedByPartition - {partition}
                           else queuedByPartition[partition := remaining];
      waiting := waiting[..i] + waiting[i + 1..];
    }

    /** The single pass over the waiters; the loop ends with nobody left who could start. */
    method Dispatch()
      requires Counted(View())
      modifies this
      ensures View() == Pass(old(View()), 0) && Inv(View())
    {
      ghost var before := View();
      PassOk(before, 0);
      var i := 0;
      while i < |waiting|
        invariant i <= |waiting| && Counted(View()) && QuietUpTo(View(), i)
        invariant Pass(before, 0) == Pass(View(), i)
        decreases |waiting| - i
      {
        ghost var here := View();
        VisitOk(here, i);
        var item := waiting[i];
        if active < limits.concurrent && Get(byPartition, item.partition) < limits.perPartition {
          DoRemove(i);
          if !item.aborted {
            DoOccupy(item.id, item.partition);
          }
          assert View() == Visit(here, i).0;
        } else {
          i := i + 1;
        }
      }
    }

    method DoAcquire(id: nat, partition: Key) returns (granted: bool, busy: bool)
      requires Inv(View()) && id !in held && id !in returned && id !in Ids(View())
      modifies this
      ensures Inv(View())
      ensures match Acquire(old(View()), id, partition)
              case Granted(s) => granted && !busy && View() == s
              case Queued(s) => !granted && !busy && View() == s
              case Busy => !granted && busy && View() == old(View())
    {
      ghost var asked := Acquire(View(), id, partition);
      AcquireInv(View(), id, partition);
      if active < limits.concurrent && Get(byPartition, partition) < limits.perPartition
         && partition !in queuedByPartition {
        DoOccupy(id, partition);
        assert View() == asked.state;
        return true, false;
      }
      if |waiting| >= limits.queued || Get(queuedByPartition, partition) >= limits.queuedPerPartition {
        return false, true;
      }
      waiting := waiting + [Waiter(id, partition, false)];
      queuedByPartition := queuedByPartition[partition := Get(queuedByPartition, partition) + 1];
      assert View() == asked.state;
      return false, false;
    }

    method DoRelease(id: nat)
      requires Inv(View())
      modifies this
      ensures View() == Release(old(View()), id) && Inv(View())
    {
      if id !in held {
        return;
      }
      ReleaseInv(View(), id);
      FreedIds(View(), id);
      GiveOk(View().slots, id);
      ghost var freed := Freed(View(), id);
      var partition := held[id];
      active := active - 1;
      var remaining := byPartition[partition] - 1;
      byPartition := if remaining == 0 then byPartition - {partition} else byPartition[partition := remaining];
      held := held - {id};
      returned := returned + {id};
      assert View() == freed;
      Dispatch();
    }
  }
}
