/**
 The bounded table of recent requests (src/registry.rs): unfinished work is never evicted, finished
 requests stay for a fixed time, and an identifier cannot be replayed while its record is there.
 */
module RequestRegistry {
  import opened Wrappers
  import opened Collections

  type Key = (string, string, string)

  /** The time at which a record was finished, if it was. */
  type Records = map<Key, Option<int>>

  datatype Limits = Limits(capacity: nat, ttl: nat)

  predicate Recent(lim: Limits, finished: Option<int>, now: int) {
    finished.None? || now - finished.value < lim.ttl
  }

  function Retain(lim: Limits, records: Records, now: int): Records {
    map k | k in records && Recent(lim, records[k], now) :: records[k]
  }

  datatype Verdict = Accepted | Duplicate | Busy

  function Judge(lim: Limits, kept: Records, k: Key): Verdict {
    if k in kept then Duplicate else if |kept| >= lim.capacity then Busy else Accepted
  }

  // ----- runs -----

  /** `last` remembers the latest registration of every key, evicted or not. */
  datatype State = State(now: int, records: Records, last: Records)

  datatype Event = Register(k: Key, now: int) | Finish(k: Key, now: int) | Sweep(now: int)

  function Clock(e: Event): int { e.now }

  function Apply(lim: Limits, s: State, e: Event): State
    requires s.now <= Clock(e)
  {
    match e
    case Register(k, now) =>
      var kept := Retain(lim, s.records, now);
      if Judge(lim, kept, k) == Accepted then State(now, kept[k := None], s.last[k := None])
      else State(now, kept, s.last)
    case Finish(k, now) =>
      if k in s.last && s.last[k].None? then
        State(now, if k in s.records then s.records[k := Some(now)] else s.records, s.last[k := Some(now)])
      else s.(now := now)
    case Sweep(now) => State(now, Retain(lim, s.records, now), s.last)
  }

  ghost predicate Reaches(lim: Limits, s: State, es: seq<Event>, z: State)
    decreases |es|
  {
    if es == [] then s == z else s.now <= Clock(es[0]) && Reaches(lim, Apply(lim, s, es[0]), es[1..], z)
  }

  ghost predicate KeyOk(lim: Limits, s: State, k: Key) {
    && (k in s.last && Recent(lim, s.last[k], s.now) ==> k in s.records)
    && (k in s.records ==> k in s.last && s.last[k] == s.records[k])
  }

  ghost predicate Inv(lim: Limits, s: State) {
    |s.records| <= lim.capacity && forall k :: KeyOk(lim, s, k)
  }

  lemma RetainShrinks(lim: Limits, records: Records, now: int)
    ensures |Retain(lim, records, now)| <= |records|
  {
    SubsetSize(Retain(lim, records, now).Keys, records.Keys);
  }

  lemma StepKey(lim: Limits, s: State, e: Event, k: Key)
    requires KeyOk(lim, s, k) && s.now <= Clock(e)
    ensures KeyOk(lim, Apply(lim, s, e), k)
  {
  }

  lemma StepSize(lim: Limits, s: State, e: Event)
    requires |s.records| <= lim.capacity && s.now <= Clock(e)
    ensures |Apply(lim, s, e).records| <= lim.capacity
  {
    match e
    case Register(k, now) =>
      var kept := Retain(lim, s.records, now);
      RetainShrinks(lim, s.records, now);
      assert kept[k := None].Keys == kept.Keys + {k};
    case Finish(k, now) => assert k in s.records ==> s.records[k := Some(now)].Keys == s.records.Keys;
    case Sweep(now) => RetainShrinks(lim, s.records, now);
  }

  lemma StepInv(lim: Limits, s: State, e: Event)
    requires Inv(lim, s) && s.now <= Clock(e)
    ensures Inv(lim, Apply(lim, s, e))
  {
    StepSize(lim, s, e);
    forall k ensures KeyOk(lim, Apply(lim, s, e), k) {
      assert KeyOk(lim, s, k);
      StepKey(lim, s, e, k);
    }
  }

  lemma {:induction false} EveryRun(lim: Limits, s: State, es: seq<Event>, z: State)
    requires Inv(lim, s) && Reaches(lim, s, es, z)
    ensures Inv(lim, z)
    decreases |es|
  {
    if es != [] {
      StepInv(lim, s, es[0]);
      EveryRun(lim, Apply(lim, s, es[0]), es[1..], z);
    }
  }

  /**
   In every run: the table stays within capacity; unfinished work is still in it; and an identifier
   is accepted again only after its last use finished at least a retention time ago.
   */
  lemma NoReplay(lim: Limits, es: seq<Event>, now: int, z: State, k: Key, later: int)
    requires Reaches(lim, State(now, map[], map[]), es, z) && z.now <= later
    ensures |z.records| <= lim.capacity
    ensures k in z.last && z.last[k].None? ==> k in z.records
    ensures Judge(lim, Retain(lim, z.records, later), k) == Accepted && k in z.last ==>
              z.last[k].Some? && later - z.last[k].value >= lim.ttl
    ensures Judge(lim, Retain(lim, z.records, later), k) == Duplicate ==>
              k in z.last && (z.last[k].None? || later - z.last[k].value < lim.ttl)
    ensures Judge(lim, Retain(lim, z.records, later), k) == Busy ==>
              lim.capacity <= |Retain(lim, z.records, later)| <= |z.records| == lim.capacity
  {
    var s := State(now, map[], map[]);
    forall l ensures KeyOk(lim, s, l) { }
    EveryRun(lim, s, es, z);
    assert KeyOk(lim, z, k);
    RetainShrinks(lim, z.records, later);
  }

  // ----- the table updated in place -----

  class Registry {
    const limits: Limits
    var records: Records

    constructor (limits: Limits)
      ensures this.limits == limits && records == map[]
    {
      this.limits := limits;
      records := map[];
    }

    method Keep(now: int)
      modifies this
      ensures records == Retain(limits, old(records), now)
    {
      records := map k | k in records && Recent(limits, records[k], now) :: records[k];
    }

    method Enter(k: Key, now: int) returns (verdict: Verdict)
      modifies this
      ensures verdict == Judge(limits, Retain(limits, old(records), now), k)
      ensures records == if verdict == Accepted then Retain(limits, old(records), now)[k := None]
                else Retain(limits, old(records), now)
    {
      Keep(now);
      if k in records {
        return Duplicate;
      }
      if |records| >= limits.capacity {
        return Busy;
      }
      records := records[k := None];
      return Accepted;
    }

    /** Only the full owner key finds a record. */
    method Get(k: Key, now: int) returns (found: bool)
      modifies this
      ensures found <==> k in old(records) && Recent(limits, old(records)[k], now)
      ensures records == Retain(limits, old(records), now)
    {
      Keep(now);
      found := k in records;
    }
  }
}
