/**
 First come, first served within a partition, over whole runs of the SDK's exchanges
 (packages/typescript/src/concurrency.ts, client.ts): whatever is acquired, released, aborted or
 constrained in between, nobody is granted a slot while an earlier waiter of its partition waits.
 */
module ExchangeOrder {
  import opened Collections
  import opened SdkAdmission
  import opened Exchanges

  /** `b` waits behind `a`, for the same partition. */
  ghost predicate Behind(s: State, a: nat, b: nat) {
    exists i, j :: 0 <= i < j < |s.waiting| && s.waiting[i].id == a && s.waiting[j].id == b
                   && s.waiting[i].partition == s.waiting[j].partition
  }

  /** `b` neither waits nor was ever granted a slot. */
  ghost predicate Absent(s: State, b: nat) {
    b !in Ids(s) && b !in s.slots.held && b !in s.slots.returned
  }

  /** As long as `a` waits, `b` is still behind it or has left the line empty-handed. */
  ghost predicate InLine(s: State, a: nat, b: nat) {
    a in Ids(s) ==> Behind(s, a, b) || Absent(s, b)
  }

  /** The line is kept, and who is not in it does not join. */
  ghost predicate Keeps(s: State, t: State, a: nat, b: nat) {
    && (InLine(s, a, b) ==> InLine(t, a, b))
    && (a !in Ids(s) ==> a !in Ids(t))
  }

  lemma BehindIsPending(s: State, a: nat, b: nat)
    requires Counted(s) && Behind(s, a, b)
    ensures a in Ids(s) && b in Ids(s) && a != b && b !in s.slots.held && b !in s.slots.returned
  {
    var i, j :| 0 <= i < j < |s.waiting| && s.waiting[i].id == a && s.waiting[j].id == b
                && s.waiting[i].partition == s.waiting[j].partition;
    assert s.waiting[i] in s.waiting && s.waiting[j] in s.waiting && Pending(s, j);
  }

  lemma RemoveKeepsBehind(s: State, m: nat, a: nat, b: nat)
    requires Counted(s) && m < |s.waiting| && Get(s.queuedBy, s.waiting[m].partition) > 0
    requires Behind(s, a, b) && s.waiting[m].id != a && s.waiting[m].id != b
    ensures Behind(Remove(s, m), a, b)
  {
    var i, j :| 0 <= i < j < |s.waiting| && s.waiting[i].id == a && s.waiting[j].id == b
                && s.waiting[i].partition == s.waiting[j].partition;
    var t := Remove(s, m);
    var x, y := if i < m then i else i - 1, if j < m then j else j - 1;
    assert t.waiting[x] == s.waiting[i] && t.waiting[y] == s.waiting[j];
  }

  /** A waiter behind another of its partition is not served before it: the other one would have been. */
  lemma NotServedBehind(s: State, m: nat, a: nat, b: nat)
    requires Counted(s) && m < |s.waiting| && QuietUpTo(s, m) && Behind(s, a, b) && s.waiting[m].id == b
    ensures !Available(s, s.waiting[m].partition)
  {
    var i, j :| 0 <= i < j < |s.waiting| && s.waiting[i].id == a && s.waiting[j].id == b
                && s.waiting[i].partition == s.waiting[j].partition;
    assert j == m;
  }

  lemma VisitKeeps(s: State, m: nat, a: nat, b: nat)
    requires Counted(s) && m < |s.waiting| && QuietUpTo(s, m) && Get(s.queuedBy, s.waiting[m].partition) > 0
    requires a in Ids(s) ==> Behind(s, a, b)
    ensures a in Ids(Visit(s, m).0) ==> a in Ids(s) && Behind(Visit(s, m).0, a, b)
  {
    var t := Visit(s, m).0;
    VisitMoves(s, m);
    if a in Ids(t) && Available(s, s.waiting[m].partition) {
      RemovedIsGone(s, m);
      if s.waiting[m].id == b { NotServedBehind(s, m, a, b); }
      RemoveKeepsBehind(s, m, a, b);
      assert t.waiting == Remove(s, m).waiting;
    }
  }

  lemma {:induction false} PassKeeps(s: State, m: nat, a: nat, b: nat)
    requires Counted(s) && m <= |s.waiting| && QuietUpTo(s, m)
    requires a in Ids(s) ==> Behind(s, a, b)
    ensures a in Ids(Pass(s, m)) ==> a in Ids(s) && Behind(Pass(s, m), a, b)
    decreases |s.waiting| - m
  {
    if m < |s.waiting| {
      VisitOk(s, m);
      VisitKeeps(s, m, a, b);
      var (t, stays) := Visit(s, m);
      PassKeeps(t, if stays then m + 1 else m, a, b);
    }
  }

  /** A dispatch keeps the line. */
  lemma DispatchKeeps(s: State, a: nat, b: nat)
    requires Counted(s)
    ensures Keeps(s, Pass(s, 0), a, b)
  {
    PassMoves(s, 0);
    if InLine(s, a, b) && a in Ids(s) && Behind(s, a, b) { PassKeeps(s, 0, a, b); }
  }

  lemma ReleaseKeeps(s: State, h: nat, a: nat, b: nat)
    requires Inv(s)
    ensures Keeps(s, Release(s, h), a, b)
  {
    if h in s.slots.held {
      var t := Freed(s, h);
      FreedIds(s, h);
      GiveOk(s.slots, h);
      assert t.waiting == s.waiting;
      assert Behind(s, a, b) ==> Behind(t, a, b);
      DispatchKeeps(t, a, b);
    }
  }

  lemma AbandonKeeps(s: State, id: nat, a: nat, b: nat)
    requires Inv(s)
    ensures Keeps(s, Abandon(s, id), a, b)
  {
    var m := Find(s.waiting, id);
    if m < |s.waiting| {
      RemoveOk(s, m);
      var t := Remove(s, m);
      RemoveMoves(s, m);
      RemovedIsGone(s, m);
      if a in Ids(t) && Behind(s, a, b) {
        BehindIsPending(s, a, b);
        if id != b { RemoveKeepsBehind(s, m, a, b); }
      }
      DispatchKeeps(t, a, b);
    }
  }

  lemma SignalKeeps(s: State, id: nat, a: nat, b: nat)
    requires Inv(s)
    ensures Keeps(s, Signal(s, id), a, b)
  {
    SignalInv(s, id);
    var t := Signal(s, id);
    if Behind(s, a, b) {
      var i, j :| 0 <= i < j < |s.waiting| && s.waiting[i].id == a && s.waiting[j].id == b
                  && s.waiting[i].partition == s.waiting[j].partition;
      assert t.waiting[i].id == a && t.waiting[j].id == b && t.waiting[i].partition == t.waiting[j].partition;
    }
  }

  lemma AppendKeeps(s: State, t: State, w: Waiter, a: nat, b: nat)
    requires w.id != a && w.id != b && t.slots == s.slots && t.waiting == s.waiting + [w]
    ensures Keeps(s, t, a, b)
  {
    forall v | v in t.waiting && v.id != w.id ensures v in s.waiting { }
    if Behind(s, a, b) {
      var i, j :| 0 <= i < j < |s.waiting| && s.waiting[i].id == a && s.waiting[j].id == b
                  && s.waiting[i].partition == s.waiting[j].partition;
      assert t.waiting[i] == s.waiting[i] && t.waiting[j] == s.waiting[j];
    }
  }

  lemma AcquireKeeps(s: State, id: nat, k: Key, a: nat, b: nat)
    requires id != a && id != b && !Acquire(s, id, k).Busy?
    ensures Keeps(s, Acquire(s, id, k).state, a, b)
  {
    var t := Acquire(s, id, k).state;
    if Acquire(s, id, k).Queued? {
      AppendKeeps(s, t, Waiter(id, k, false), a, b);
    } else {
      assert t.waiting == s.waiting;
    }
  }

  // ----- over runs -----

  /** Past its one chance to join the queue. */
  predicate Joined(c: Client, id: nat) {
    id in c.table && !c.table[id].pc.Discovering?
  }

  ghost predicate Line(c: Client, a: nat, b: nat) {
    InLine(c.slots, a, b) && Joined(c, a) && Joined(c, b)
  }

  lemma FinishKeeps(c: Client, id: nat, a: nat, b: nat)
    requires Owned(c) && id in c.table
    ensures Keeps(c.slots, Finish(c, id).slots, a, b)
  {
    SignalKeeps(c.slots, id, a, b);
    SignalInv(c.slots, id);
    ReleaseKeeps(Signal(c.slots, id), id, a, b);
  }

  lemma StepKeeps(c: Client, v: Event, a: nat, b: nat)
    requires Owned(c) && Enabled(c, v) && Joined(c, a) && Joined(c, b)
    ensures Keeps(c.slots, Apply(c, v).slots, a, b)
  {
    match v
    case Discovered(id) =>
      if !c.table[id].finished && !Acquire(c.slots, id, c.table[id].partition).Busy? {
        AcquireKeeps(c.slots, id, c.table[id].partition, a, b);
      }
      FinishKeeps(c, id, a, b);
    case Undiscovered(id) => FinishKeeps(c, id, a, b);
    case Granting(id) => ReleaseKeeps(c.slots, id, a, b);
    case Refusing(id) => FinishKeeps(c, id, a, b);
    case Listener(id) => AbandonKeeps(c.slots, id, a, b);
    case Settle(id) => FinishKeeps(c, id, a, b);
    case Abort(id) => FinishKeeps(c, id, a, b);
    case Limit(limits) => assert Apply(c, v).slots.waiting == c.slots.waiting;
    case _ =>
  }

  lemma StepJoined(c: Client, v: Event, id: nat)
    requires Enabled(c, v) && Joined(c, id)
    ensures Joined(Apply(c, v), id)
  {
  }

  lemma {:induction false} EveryRunKeeps(c: Client, vs: seq<Event>, d: Client, a: nat, b: nat)
    requires Owned(c) && Line(c, a, b) && Reaches(c, vs, d)
    ensures Line(d, a, b) && Owned(d)
    decreases |vs|
  {
    if vs != [] {
      StepOwned(c, vs[0]);
      StepKeeps(c, vs[0], a, b);
      StepJoined(c, vs[0], a);
      StepJoined(c, vs[0], b);
      EveryRunKeeps(Apply(c, vs[0]), vs[1..], d, a, b);
    }
  }

  /**
   Nobody is overtaken: if in a reachable state `b` waits behind `a` for the same partition, then in
   every later state in which `a` still waits, `b` has never been granted a slot.
   */
  lemma NobodyIsOvertaken(limits: Limits, past: seq<Event>, c: Client, vs: seq<Event>, d: Client, a: nat, b: nat)
    requires Reaches(Fresh(limits), past, c) && Behind(c.slots, a, b) && Reaches(c, vs, d) && a in Ids(d.slots)
    ensures b !in d.slots.slots.held && b !in d.slots.slots.returned
    ensures b in Ids(d.slots) ==> Behind(d.slots, a, b)
  {
    FreshOwned(limits);
    EveryRun(Fresh(limits), past, c);
    BehindIsPending(c.slots, a, b);
    assert ExchangeOk(c, a) && ExchangeOk(c, b);
    EveryRunKeeps(c, vs, d, a, b);
    if Behind(d.slots, a, b) { BehindIsPending(d.slots, a, b); }
  }

  // ----- nobody is granted a slot after its abort -----

  /** `id` has no slot, and if it still waits, its signal has fired. */
  ghost predicate Barred(s: State, id: nat) {
    id !in s.slots.held && forall i :: 0 <= i < |s.waiting| && s.waiting[i].id == id ==> s.waiting[i].aborted
  }

  lemma RemoveBars(s: State, m: nat, id: nat)
    requires m < |s.waiting| && Get(s.queuedBy, s.waiting[m].partition) > 0 && Barred(s, id)
    ensures Barred(Remove(s, m), id)
  {
    var t := Remove(s, m);
    forall i | 0 <= i < |t.waiting| && t.waiting[i].id == id ensures t.waiting[i].aborted {
      assert t.waiting[i] == s.waiting[if i < m then i else i + 1];
    }
  }

  lemma {:induction false} PassBars(s: State, m: nat, id: nat)
    requires Barred(s, id)
    ensures Barred(Pass(s, m), id)
    decreases |s.waiting| - m
  {
    if m < |s.waiting| && Get(s.queuedBy, s.waiting[m].partition) > 0 {
      var (t, stays) := Visit(s, m);
      RemoveBars(s, m, id);
      PassBars(t, if stays then m + 1 else m, id);
    }
  }

  lemma ReleaseBars(s: State, h: nat, id: nat)
    requires Inv(s) && Barred(s, id)
    ensures Barred(Release(s, h), id)
  {
    if h in s.slots.held {
      GiveOk(s.slots, h);
      PassBars(Freed(s, h), 0, id);
    }
  }

  lemma AbandonBars(s: State, h: nat, id: nat)
    requires Barred(s, id)
    ensures Barred(Abandon(s, h), id)
  {
    var m := Find(s.waiting, h);
    if m < |s.waiting| && Get(s.queuedBy, s.waiting[m].partition) > 0 {
      RemoveBars(s, m, id);
      PassBars(Remove(s, m), 0, id);
    }
  }

  lemma FinishBars(c: Client, h: nat, id: nat)
    requires Owned(c) && h in c.table && Barred(c.slots, id)
    ensures Barred(Finish(c, h).slots, id)
  {
    SignalInv(c.slots, h);
    assert Barred(Signal(c.slots, h), id);
    ReleaseBars(Signal(c.slots, h), h, id);
  }

  ghost predicate Finished(c: Client, id: nat) {
    id in c.table && c.table[id].finished && Barred(c.slots, id)
  }

  lemma StepBars(c: Client, v: Event, id: nat)
    requires Owned(c) && Enabled(c, v) && Finished(c, id)
    ensures Finished(Apply(c, v), id)
  {
    match v
    case Discovered(h) => FinishBars(c, h, id);
    case Undiscovered(h) => FinishBars(c, h, id);
    case Granting(h) => ReleaseBars(c.slots, h, id);
    case Refusing(h) => FinishBars(c, h, id);
    case Listener(h) => AbandonBars(c.slots, h, id);
    case Settle(h) => FinishBars(c, h, id);
    case Abort(h) => FinishBars(c, h, id);
    case _ =>
  }

  lemma {:induction false} EveryRunBars(c: Client, vs: seq<Event>, d: Client, id: nat)
    requires Owned(c) && Finished(c, id) && Reaches(c, vs, d)
    ensures Finished(d, id)
    decreases |vs|
  {
    if vs != [] {
      StepOwned(c, vs[0]);
      StepBars(c, vs[0], id);
      EveryRunBars(Apply(c, vs[0]), vs[1..], d, id);
    }
  }

  /** An exchange aborted before it had a slot never gets one, however long its listener takes to run. */
  lemma AbortedIsNeverGranted(limits: Limits, past: seq<Event>, c: Client, id: nat, vs: seq<Event>, d: Client)
    requires Reaches(Fresh(limits), past, c) && id in c.table && !c.table[id].finished && id !in c.slots.slots.held
    requires Reaches(Apply(c, Abort(id)), vs, d)
    ensures id !in d.slots.slots.held
  {
    FreshOwned(limits);
    EveryRun(Fresh(limits), past, c);
    assert ExchangeOk(c, id);
    StepOwned(c, Abort(id));
    EveryRunBars(Apply(c, Abort(id)), vs, d, id);
  }
}
