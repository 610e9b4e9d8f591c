/**
 Revisions of a managed context (src/contexts.rs): cookie commands run one at a time under the jar
 lock, commit by compare-and-swap on a revision counter, and reply only if the context has not
 expired meanwhile.  Other requests touch the lifetime and a close may come at any point.

 `now` is the monotone clock of lifetimes and `wall` the calendar clock of cookies, taken to be
 monotone as well.  Where the code reads the lifetime clock before it takes the lifetime lock, the
 event carries the reading, which may be any instant since the context was created.
 */
module Revisions {
  import opened Cookies
  import opened CookieJar
  import opened ManagedJars
  import Snapshots

  // ----- lifetimes -----

  datatype Ttl = Ttl(idle: nat, maxAge: nat)

  datatype Lifetime = Lifetime(created: int, touched: int, closed: bool)

  function Since(later: int, earlier: int): nat {
    if later <= earlier then 0 else later - earlier
  }

  function Deadline(ttl: Ttl, l: Lifetime): nat {
    var idle := Since(l.touched, l.created) + ttl.idle;
    if idle <= ttl.maxAge then idle else ttl.maxAge
  }

  predicate Over(ttl: Ttl, l: Lifetime, now: int) {
    l.closed || Since(now, l.created) >= Deadline(ttl, l)
  }

  /** A touch whose clock was read at `read`; refused if the lifetime was over at that reading. */
  function Touched(ttl: Ttl, l: Lifetime, read: int): Lifetime {
    if Over(ttl, l, read) then l else l.(touched := read)
  }

  // ----- commands -----

  const MAX_REVISION: nat := 9_007_199_254_740_991

  datatype Mutation =
    | Setting(url: Url, texts: seq<string>, at: int)
    | Importing(snapshot: Snapshot, at: int)
    | Absorbing(url: Url, headers: seq<string>, at: int)

  /** A mutation of the jar; requests may come only from the context's allowed origins. */
  ghost function Perform(cx: Context, jar: Jar, m: Mutation): Result<Jar> {
    match m
    case Setting(url, texts, at) => if Allowed(cx, url) then Apply(cx, jar, url, texts, false, at) else Invalid
    case Importing(snapshot, at) => Import(cx, snapshot, at)
    case Absorbing(url, headers, at) => if Allowed(cx, url) then Absorb(cx, jar, url, headers, at) else Invalid
  }

  /** The jar after committed mutations, in revision order. */
  ghost function Replay(cx: Context, log: seq<Mutation>): Jar {
    if log == [] then map[]
    else
      var before := Replay(cx, log[..|log| - 1]);
      var r := Perform(cx, before, log[|log| - 1]);
      if r.Ok? then r.value else before
  }

  // ----- all interleavings -----

  /** A successful reply: the revision it names and the live cookies it was computed from. */
  datatype Observation = Observation(revision: nat, at: int, contents: Jar, commits: bool)

  datatype Phase =
    | Unlocked
    | Held
    | Replying(reply: Observation)
    | Absorbed(mutation: Mutation)
    | Failed

  datatype State = State(
    now: int,
    wall: int,
    lifetime: Lifetime,
    jar: Jar,
    revision: nat,
    phase: Phase,
    log: seq<Mutation>,
    seen: seq<Observation>,
    wiped: bool)

  function Created(now: int, wall: int): State {
    State(now, wall, Lifetime(now, now, false), map[], 0, Unlocked, [], [], false)
  }

  datatype Event =
    | Tick(now: int, wall: int)
    | Touch(read: int)
    | Close
    | CloseClears
    | Enter(read: int)
    | Observe
    | Read
    | Write(mutation: Mutation, expected: nat)
    | Receive(mutation: Mutation, read: int)
    | Finish(read: int)
    | Leave

  datatype Effect = Next(state: State) | Disabled

  function Wipe(s: State): State {
    s.(jar := map[], wiped := true)
  }

  function Current(s: State, commits: bool): Observation {
    Observation(s.revision, s.wall, Live(s.jar, s.wall), commits)
  }

  function Commit(s: State, m: Mutation): State {
    s.(revision := s.revision + 1, log := s.log + [m])
  }

  /** `set` and `import`: the expected revision, room for the next one, and then the jar decides. */
  ghost function Written(cx: Context, s: State, m: Mutation, expected: nat): State {
    if s.revision != expected || s.revision + 1 > MAX_REVISION then s
    else match Perform(cx, s.jar, m)
      case Ok(jar) =>
        var t := Commit(s.(jar := jar), m);
        t.(phase := Replying(Current(t, true)))
      case _ => s
  }

  /** Response headers: the revision is committed only after the context proved to be alive. */
  ghost function Received(cx: Context, ttl: Ttl, s: State, m: Mutation, read: int): State {
    var t := s.(lifetime := Touched(ttl, s.lifetime, read));
    if Over(ttl, s.lifetime, read) || s.revision + 1 > MAX_REVISION then t
    else match Perform(cx, s.jar, m)
      case Ok(jar) => t.(jar := jar, phase := Absorbed(m))
      case _ => t
  }

  function Finished(ttl: Ttl, s: State, read: int): State {
    if Over(ttl, s.lifetime, read) then Wipe(s).(phase := Failed)
    else match s.phase
      case Replying(reply) => s.(seen := s.seen + [reply], phase := Held)
      case Absorbed(m) =>
        var t := Commit(s, m);
        t.(seen := s.seen + [Current(t, true)], phase := Held)
      case _ => s
  }

  /** A clock reading taken some time since the context was created. */
  predicate Readable(s: State, read: int) {
    s.lifetime.created <= read <= s.now
  }

  ghost function Step(cx: Context, ttl: Ttl, s: State, e: Event): Effect {
    match e
    case Tick(now, wall) => if now < s.now || wall < s.wall then Disabled else Next(s.(now := now, wall := wall))
    case Touch(read) =>
      if !Readable(s, read) then Disabled else Next(s.(lifetime := Touched(ttl, s.lifetime, read)))
    case Close => Next(s.(lifetime := s.lifetime.(closed := true)))
    case CloseClears => if s.phase != Unlocked || !s.lifetime.closed then Disabled else Next(Wipe(s))
    case Enter(read) =>
      if s.phase != Unlocked || !Readable(s, read) then Disabled
      else if Over(ttl, s.lifetime, read) then Next(Wipe(s))
      else Next(s.(lifetime := Touched(ttl, s.lifetime, read), phase := Held))
    case Observe => if s.phase != Held then Disabled else Next(s.(seen := s.seen + [Current(s, false)]))
    case Read => if s.phase != Held then Disabled else Next(s.(phase := Replying(Current(s, false))))
    case Write(m, expected) =>
      if s.phase != Held || m.Absorbing? || m.at != s.wall then Disabled else Next(Written(cx, s, m, expected))
    case Receive(m, read) =>
      if s.phase != Held || !m.Absorbing? || m.at != s.wall || m.headers == [] || !Readable(s, read) then Disabled
      else Next(Received(cx, ttl, s, m, read))
    case Finish(read) =>
      if (!s.phase.Replying? && !s.phase.Absorbed?) || !Readable(s, read) then Disabled
      else Next(Finished(ttl, s, read))
    case Leave =>
      if s.phase != Held && s.phase != Failed then Disabled
      else Next((if Over(ttl, s.lifetime, s.now) then Wipe(s) else s).(phase := Unlocked))
  }

  ghost predicate Reaches(cx: Context, ttl: Ttl, s: State, es: seq<Event>, z: State)
    decreases |es|
  {
    if es == [] then s == z
    else Step(cx, ttl, s, es[0]).Next? && Reaches(cx, ttl, Step(cx, ttl, s, es[0]).state, es[1..], z)
  }

  // ----- old readings -----

  /** An old reading lets someone back into a context that is over: the touch succeeds, or a command enters. */
  predicate Revives(ttl: Ttl, s: State, e: Event) {
    && Over(ttl, s.lifetime, s.now)
    && match e
       case Touch(read) => !Over(ttl, Touched(ttl, s.lifetime, read), s.now)
       case Enter(read) => !Over(ttl, s.lifetime, read)
       case _ => false
  }

  /** No event of the run revives the context after its jar was wiped. */
  ghost predicate Calm(cx: Context, ttl: Ttl, s: State, es: seq<Event>)
    decreases |es|
  {
    es != [] && Step(cx, ttl, s, es[0]).Next? ==>
      !(s.wiped && Revives(ttl, s, es[0])) && Calm(cx, ttl, Step(cx, ttl, s, es[0]).state, es[1..])
  }

  /** No event of the run revives the context at all. */
  ghost predicate Unrevived(cx: Context, ttl: Ttl, s: State, es: seq<Event>)
    decreases |es|
  {
    es != [] && Step(cx, ttl, s, es[0]).Next? ==>
      !Revives(ttl, s, es[0]) && Unrevived(cx, ttl, Step(cx, ttl, s, es[0]).state, es[1..])
  }

  predicate Fresh(s: State, e: Event) {
    (e.Touch? || e.Enter?) ==> e.read == s.now
  }

  ghost predicate AllFresh(cx: Context, ttl: Ttl, s: State, es: seq<Event>)
    decreases |es|
  {
    es != [] && Step(cx, ttl, s, es[0]).Next? ==>
      Fresh(s, es[0]) && AllFresh(cx, ttl, Step(cx, ttl, s, es[0]).state, es[1..])
  }

  /** If the clock were read under the lock, nothing would ever be revived. */
  lemma {:induction false} FreshReadingsReviveNothing(cx: Context, ttl: Ttl, s: State, es: seq<Event>)
    requires AllFresh(cx, ttl, s, es)
    ensures Unrevived(cx, ttl, s, es) && Calm(cx, ttl, s, es)
    decreases |es|
  {
    if es != [] && Step(cx, ttl, s, es[0]).Next? {
      FreshReadingsReviveNothing(cx, ttl, Step(cx, ttl, s, es[0]).state, es[1..]);
    }
  }

  // ----- the invariant -----

  ghost predicate Seen(cx: Context, log: seq<Mutation>, wall: int, o: Observation) {
    o.revision <= |log| && o.at <= wall && o.contents == Live(Replay(cx, log[..o.revision]), o.at)
  }

  ghost predicate AllSeen(cx: Context, s: State) {
    forall i :: 0 <= i < |s.seen| ==> Seen(cx, s.log, s.wall, s.seen[i])
  }

  /** Commits are numbered in the order of their replies; `bound` is one above the last. */
  ghost predicate Numbered(seen: seq<Observation>, bound: nat) {
    && (forall i, j :: 0 <= i < j < |seen| && seen[i].commits && seen[j].commits ==>
                         seen[i].revision < seen[j].revision)
    && (forall i :: 0 <= i < |seen| && seen[i].commits ==> seen[i].revision < bound)
  }

  /** The mutations the jar holds: those committed and the one whose commit is still to come. */
  function Applied(s: State): seq<Mutation> {
    if s.phase.Absorbed? then s.log + [s.phase.mutation] else s.log
  }

  function Bound(s: State): nat {
    if s.phase.Replying? && s.phase.reply.commits then s.revision else s.revision + 1
  }

  ghost predicate Contents(cx: Context, s: State) {
    && s.revision == |s.log|
    && (!s.wiped ==> s.jar == Replay(cx, Applied(s)))
    && (s.phase.Replying? ==> Seen(cx, s.log, s.wall, s.phase.reply))
  }

  /** Holds whatever the clocks read: the counter is the length of the history, and commits are numbered by it. */
  ghost predicate Ordinal(s: State) {
    && s.revision == |s.log|
    && (s.phase.Replying? ==> s.phase.reply.revision == s.revision)
    && Numbered(s.seen, Bound(s))
  }

  /** A wiped jar belongs to a context that is over, and stays over. */
  ghost predicate Dead(ttl: Ttl, s: State) {
    s.wiped ==> Over(ttl, s.lifetime, s.now) && (s.phase == Unlocked || s.phase == Failed)
  }

  ghost predicate Inv(cx: Context, ttl: Ttl, s: State) {
    && Contents(cx, s) && AllSeen(cx, s) && Ordinal(s) && Dead(ttl, s)
    && s.lifetime.created <= s.lifetime.touched <= s.now
    && (s.phase == Failed ==> s.wiped)
  }

  lemma OverStays(ttl: Ttl, l: Lifetime, now: int, later: int)
    requires Over(ttl, l, now) && now <= later
    ensures Over(ttl, l, later) && Touched(ttl, l, later) == l
  {
  }

  lemma SeenGrows(cx: Context, log: seq<Mutation>, wall: int, o: Observation, m: Mutation, later: int)
    requires Seen(cx, log, wall, o) && wall <= later
    ensures Seen(cx, log, later, o) && Seen(cx, log + [m], later, o)
  {
    assert (log + [m])[..o.revision] == log[..o.revision];
  }

  lemma AllSeenGrows(cx: Context, s: State, t: State, m: Mutation)
    requires AllSeen(cx, s) && t.seen == s.seen && (t.log == s.log || t.log == s.log + [m]) && s.wall <= t.wall
    ensures AllSeen(cx, t)
  {
    forall i | 0 <= i < |t.seen| ensures Seen(cx, t.log, t.wall, t.seen[i]) {
      SeenGrows(cx, s.log, s.wall, s.seen[i], m, t.wall);
    }
  }

  lemma CurrentSeen(cx: Context, s: State, commits: bool)
    requires s.revision == |s.log| && s.jar == Replay(cx, s.log)
    ensures Seen(cx, s.log, s.wall, Current(s, commits))
  {
    assert s.log[..s.revision] == s.log;
  }

  lemma ReplayNext(cx: Context, log: seq<Mutation>, m: Mutation)
    requires Perform(cx, Replay(cx, log), m).Ok?
    ensures Replay(cx, log + [m]) == Perform(cx, Replay(cx, log), m).value
  {
    assert (log + [m])[..|log + [m]| - 1] == log;
  }

  lemma WriteInv(cx: Context, ttl: Ttl, s: State, m: Mutation, expected: nat)
    requires Inv(cx, ttl, s) && s.phase == Held
    ensures Inv(cx, ttl, Written(cx, s, m, expected))
  {
    var r := Perform(cx, s.jar, m);
    if s.revision == expected && s.revision + 1 <= MAX_REVISION && r.Ok? {
      var t := Commit(s.(jar := r.value), m);
      ReplayNext(cx, s.log, m);
      CurrentSeen(cx, t, true);
      AllSeenGrows(cx, s, Written(cx, s, m, expected), m);
    }
  }

  lemma ReceiveInv(cx: Context, ttl: Ttl, s: State, m: Mutation, read: int)
    requires Inv(cx, ttl, s) && s.phase == Held && Readable(s, read)
    ensures Inv(cx, ttl, Received(cx, ttl, s, m, read))
  {
    var r := Perform(cx, s.jar, m);
    var t := Received(cx, ttl, s, m, read);
    if r.Ok? { ReplayNext(cx, s.log, m); }
    AllSeenGrows(cx, s, t, m);
  }

  lemma AddNumber(seen: seq<Observation>, o: Observation)
    requires if o.commits then Numbered(seen, o.revision) else Numbered(seen, o.revision + 1)
    ensures Numbered(seen + [o], o.revision + 1)
  {
    var t := seen + [o];
    forall i | 0 <= i < |t| && t[i].commits ensures t[i].revision < o.revision + 1 {
      assert i == |seen| || t[i] == seen[i];
    }
  }

  lemma ReplyInv(cx: Context, ttl: Ttl, s: State, read: int)
    requires Inv(cx, ttl, s) && s.phase.Replying? && !Over(ttl, s.lifetime, read)
    ensures Inv(cx, ttl, Finished(ttl, s, read))
  {
    AddReply(cx, s, Finished(ttl, s, read), s.phase.reply);
    AddNumber(s.seen, s.phase.reply);
  }

  lemma AbsorbInv(cx: Context, ttl: Ttl, s: State, read: int)
    requires Inv(cx, ttl, s) && s.phase.Absorbed? && !Over(ttl, s.lifetime, read)
    ensures Inv(cx, ttl, Finished(ttl, s, read))
  {
    var m := s.phase.mutation;
    var c := Commit(s, m);
    CurrentSeen(cx, c, true);
    AllSeenGrows(cx, s, c, m);
    AddReply(cx, c, Finished(ttl, s, read), Current(c, true));
    AddNumber(s.seen, Current(c, true));
  }

  lemma FinishInv(cx: Context, ttl: Ttl, s: State, read: int)
    requires Inv(cx, ttl, s) && (s.phase.Replying? || s.phase.Absorbed?) && Readable(s, read)
    ensures Inv(cx, ttl, Finished(ttl, s, read))
  {
    if Over(ttl, s.lifetime, read) {
      OverStays(ttl, s.lifetime, read, s.now);
    } else if s.phase.Replying? {
      ReplyInv(cx, ttl, s, read);
    } else {
      AbsorbInv(cx, ttl, s, read);
    }
  }

  lemma AddReply(cx: Context, s: State, t: State, o: Observation)
    requires AllSeen(cx, s) && Seen(cx, s.log, s.wall, o)
    requires t.log == s.log && t.wall == s.wall && t.seen == s.seen + [o]
    ensures AllSeen(cx, t)
  {
  }

  lemma StepInv(cx: Context, ttl: Ttl, s: State, e: Event)
    requires Inv(cx, ttl, s) && Step(cx, ttl, s, e).Next? && !(s.wiped && Revives(ttl, s, e))
    ensures Inv(cx, ttl, Step(cx, ttl, s, e).state)
  {
    var t := Step(cx, ttl, s, e).state;
    match e
    case Tick(now, wall) =>
      AllSeenGrows(cx, s, t, Importing(Snapshot("", []), 0));
      if s.wiped { OverStays(ttl, s.lifetime, s.now, now); }
    case Enter(read) => if Over(ttl, s.lifetime, read) { OverStays(ttl, s.lifetime, read, s.now); }
    case Observe =>
      CurrentSeen(cx, s, false);
      AddReply(cx, s, t, Current(s, false));
      AddNumber(s.seen, Current(s, false));
    case Read => CurrentSeen(cx, s, false);
    case Write(m, expected) => WriteInv(cx, ttl, s, m, expected);
    case Receive(m, read) => ReceiveInv(cx, ttl, s, m, read);
    case Finish(read) => FinishInv(cx, ttl, s, read);
    case _ =>
  }

  lemma {:induction false} EveryRun(cx: Context, ttl: Ttl, s: State, es: seq<Event>, z: State)
    requires Inv(cx, ttl, s) && Reaches(cx, ttl, s, es, z) && Calm(cx, ttl, s, es)
    ensures Inv(cx, ttl, z)
    decreases |es|
  {
    if es != [] {
      StepInv(cx, ttl, s, es[0]);
      EveryRun(cx, ttl, Step(cx, ttl, s, es[0]).state, es[1..], z);
    }
  }

  lemma FinishOrdinal(ttl: Ttl, s: State, read: int)
    requires Ordinal(s) && (s.phase.Replying? || s.phase.Absorbed?)
    ensures Ordinal(Finished(ttl, s, read))
  {
    if s.phase.Replying? {
      AddNumber(s.seen, s.phase.reply);
    } else {
      AddNumber(s.seen, Current(Commit(s, s.phase.mutation), true));
    }
  }

  lemma StepOrdinal(cx: Context, ttl: Ttl, s: State, e: Event)
    requires Ordinal(s) && Step(cx, ttl, s, e).Next?
    ensures Ordinal(Step(cx, ttl, s, e).state)
  {
    match e
    case Observe => AddNumber(s.seen, Current(s, false));
    case Finish(read) => FinishOrdinal(ttl, s, read);
    case _ =>
  }

  lemma {:induction false} EveryRunOrdinal(cx: Context, ttl: Ttl, s: State, es: seq<Event>, z: State)
    requires Ordinal(s) && Reaches(cx, ttl, s, es, z)
    ensures Ordinal(z)
    decreases |es|
  {
    if es != [] {
      StepOrdinal(cx, ttl, s, es[0]);
      EveryRunOrdinal(cx, ttl, Step(cx, ttl, s, es[0]).state, es[1..], z);
    }
  }

  // ----- what a revision means -----

  lemma LiveTwice(jar: Jar, first: int, later: int)
    requires first <= later
    ensures Live(Live(jar, first), later) == Live(jar, later)
  {
  }

  lemma CreatedInv(cx: Context, ttl: Ttl, now: int, wall: int)
    ensures Inv(cx, ttl, Created(now, wall))
  {
  }

  /**
   Over every run in which no old reading revives a wiped context: a successful observation shows the
   committed mutations up to its revision, in order; so two observations of one revision differ at
   most by cookies expired between them.
   */
  lemma RevisionDeterminesContents(cx: Context, ttl: Ttl, now: int, wall: int, es: seq<Event>, z: State, i: nat, j: nat)
    requires Reaches(cx, ttl, Created(now, wall), es, z) && Calm(cx, ttl, Created(now, wall), es)
    requires i < |z.seen| && j < |z.seen|
    requires z.seen[i].revision == z.seen[j].revision && z.seen[i].at <= z.seen[j].at
    ensures z.seen[i].revision <= |z.log| == z.revision
    ensures z.seen[i].contents == Live(Replay(cx, z.log[..z.seen[i].revision]), z.seen[i].at)
    ensures z.seen[j].contents == Live(z.seen[i].contents, z.seen[j].at)
  {
    CreatedInv(cx, ttl, now, wall);
    EveryRun(cx, ttl, Created(now, wall), es, z);
    assert Seen(cx, z.log, z.wall, z.seen[i]) && Seen(cx, z.log, z.wall, z.seen[j]);
    LiveTwice(Replay(cx, z.log[..z.seen[i].revision]), z.seen[i].at, z.seen[j].at);
  }

  /** In every run, whatever the clocks read, no revision is handed out by two successful mutations. */
  lemma EachRevisionCommittedOnce(cx: Context, ttl: Ttl, now: int, wall: int, es: seq<Event>, z: State, i: nat, j: nat)
    requires Reaches(cx, ttl, Created(now, wall), es, z) && i < j < |z.seen| && z.seen[i].commits && z.seen[j].commits
    ensures z.seen[i].revision < z.seen[j].revision
  {
    EveryRunOrdinal(cx, ttl, Created(now, wall), es, z);
  }

  // ----- compare and swap -----

  /**
   A write commits exactly when it expects the length of the history, there is a revision left and
   the jar takes it; then it is the next entry, the jar is what it made of it, and the reply names
   the new length.  Otherwise it changes nothing at all.
   */
  lemma WriteCommits(cx: Context, ttl: Ttl, s: State, m: Mutation, expected: nat, t: State)
    requires Ordinal(s) && Step(cx, ttl, s, Write(m, expected)) == Next(t)
    ensures t != s <==> expected == |s.log| && |s.log| < MAX_REVISION && Perform(cx, s.jar, m).Ok?
    ensures t != s ==> t.log == s.log + [m] && Perform(cx, s.jar, m) == Ok(t.jar)
    ensures t != s ==> t.phase.Replying? && t.phase.reply.commits && t.phase.reply.revision == expected + 1
  {
    if t != s { assert t.log[|s.log|] == m; }
  }

  /** A committed write is entry number `expected` of the history from then on. */
  lemma CommittedWriteStays(cx: Context, ttl: Ttl, now: int, wall: int, es: seq<Event>, s: State, m: Mutation,
                            expected: nat, t: State, fs: seq<Event>, z: State)
    requires Reaches(cx, ttl, Created(now, wall), es, s) && Step(cx, ttl, s, Write(m, expected)) == Next(t) && t != s
    requires Reaches(cx, ttl, t, fs, z)
    ensures expected < |z.log| && z.log[expected] == m && s.log == z.log[..expected]
  {
    EveryRunOrdinal(cx, ttl, Created(now, wall), es, s);
    WriteCommits(cx, ttl, s, m, expected, t);
    StepOrdinal(cx, ttl, s, Write(m, expected));
    HistoryOnlyGrows(cx, ttl, t, fs, z);
  }

  /** Of two writes that expect the same revision at most one commits: the later one changes nothing. */
  lemma OneWriterWins(cx: Context, ttl: Ttl, now: int, wall: int, es: seq<Event>, s: State, m: Mutation,
                      expected: nat, t: State, fs: seq<Event>, u: State, n: Mutation, v: State)
    requires Reaches(cx, ttl, Created(now, wall), es, s) && Step(cx, ttl, s, Write(m, expected)) == Next(t) && t != s
    requires Reaches(cx, ttl, t, fs, u) && Step(cx, ttl, u, Write(n, expected)) == Next(v)
    ensures v == u
  {
    CommittedWriteStays(cx, ttl, now, wall, es, s, m, expected, t, fs, u);
    EveryRunOrdinal(cx, ttl, Created(now, wall), es, s);
    StepOrdinal(cx, ttl, s, Write(m, expected));
    EveryRunOrdinal(cx, ttl, t, fs, u);
    WriteCommits(cx, ttl, u, n, expected, v);
  }

  /**
   Response headers commit exactly when the context was alive at both looks, there is a revision left
   and the jar takes them; then they are the next entry and the reply names the new length.
   */
  lemma ReceiveCommits(cx: Context, ttl: Ttl, s: State, m: Mutation, first: int, t: State, second: int, u: State)
    requires Ordinal(s) && Step(cx, ttl, s, Receive(m, first)) == Next(t)
    requires if t.phase.Absorbed? then Step(cx, ttl, t, Finish(second)) == Next(u) else u == t
    ensures u.log != s.log <==>
              && !Over(ttl, s.lifetime, first) && |s.log| < MAX_REVISION && Perform(cx, s.jar, m).Ok?
              && !Over(ttl, s.lifetime.(touched := first), second)
    ensures u.log != s.log ==>
              && u.log == s.log + [m] && Perform(cx, s.jar, m) == Ok(u.jar) && |u.seen| == |s.seen| + 1
              && u.seen[|s.seen|].commits && u.seen[|s.seen|].revision == |u.log|
  {
    if t.phase.Absorbed? { assert (s.log + [m])[|s.log|] == m; }
  }

  /** Committed history is never rewritten, and the counter is its length. */
  lemma {:induction false} HistoryOnlyGrows(cx: Context, ttl: Ttl, s: State, es: seq<Event>, z: State)
    requires Reaches(cx, ttl, s, es, z) && s.revision == |s.log|
    ensures s.log <= z.log && s.seen <= z.seen && z.revision == |z.log|
    decreases |es|
  {
    if es != [] { HistoryOnlyGrows(cx, ttl, Step(cx, ttl, s, es[0]).state, es[1..], z); }
  }

  /** Once a context nobody uses is over, and unless it is revived, nothing is observed or committed again. */
  lemma {:induction false} OverIsFinal(cx: Context, ttl: Ttl, s: State, es: seq<Event>, z: State)
    requires Reaches(cx, ttl, s, es, z) && Unrevived(cx, ttl, s, es)
    requires Over(ttl, s.lifetime, s.now) && (s.phase == Unlocked || s.phase == Failed)
    ensures z.seen == s.seen && z.log == s.log && Over(ttl, z.lifetime, z.now)
              && (z.phase == Unlocked || z.phase == Failed)
    decreases |es|
  {
    if es != [] { OverIsFinal(cx, ttl, Step(cx, ttl, s, es[0]).state, es[1..], z); }
  }

  lemma PerformKeepsInv(cx: Context, jar: Jar, m: Mutation)
    requires Proper(cx) && CookieJar.Inv(cx, jar)
    ensures Perform(cx, jar, m).Ok? ==> CookieJar.Inv(cx, Perform(cx, jar, m).value)
  {
    match m
    case Setting(url, texts, at) => if Allowed(cx, url) { ApplyKeepsInv(cx, jar, url, texts, false, at); }
    case Importing(snapshot, at) => ImportKeepsInv(cx, snapshot, at);
    case Absorbing(url, headers, at) => if Allowed(cx, url) { ApplyKeepsInv(cx, jar, url, Texts(headers), true, at); }
  }

  /** A step leaves the jar alone, empties it or performs one whole mutation. */
  lemma StepJar(cx: Context, ttl: Ttl, s: State, e: Event, t: State)
    requires Step(cx, ttl, s, e) == Next(t)
    ensures || t.jar == s.jar
            || t.jar == map[]
            || ((e.Write? || e.Receive?) && Perform(cx, s.jar, e.mutation) == Ok(t.jar))
  {
  }

  /** Every jar of every run keeps its bounds and policies. */
  lemma {:induction false} EveryJarOk(cx: Context, ttl: Ttl, s: State, es: seq<Event>, z: State)
    requires Proper(cx) && CookieJar.Inv(cx, s.jar) && Reaches(cx, ttl, s, es, z)
    ensures CookieJar.Inv(cx, z.jar)
    decreases |es|
  {
    if es != [] {
      var t := Step(cx, ttl, s, es[0]).state;
      EmptyInv(cx);
      StepJar(cx, ttl, s, es[0], t);
      if es[0].Write? || es[0].Receive? { PerformKeepsInv(cx, s.jar, es[0].mutation); }
      EveryJarOk(cx, ttl, t, es[1..], z);
    }
  }

  /** In every run every stored cookie belongs to an allowed origin and obeys the attribute rules. */
  lemma EveryCookieObeys(cx: Context, ttl: Ttl, now: int, wall: int, es: seq<Event>, z: State, k: Key)
    requires Proper(cx) && Reaches(cx, ttl, Created(now, wall), es, z) && k in z.jar
    ensures KeyOf(z.jar[k]) == k && NameOk(k.name) && "/" <= k.path
    ensures exists i :: 0 <= i < |cx.origins| && UnderDomain(cx.hosts, z.jar[k].domain, cx.origins[i].host)
                        && (z.jar[k].secure ==> cx.origins[i].https)
    ensures z.jar[k].domain.Suffix? ==> SafeSuffix(cx.hosts, k.domain)
    ensures NeedsSecure(z.jar[k]) ==> z.jar[k].secure
    ensures HasPrefix(k.name, "__Host-") ==> z.jar[k].domain.HostOnly? && k.path == "/"
    ensures HasPrefix(k.name, "__Http-") || HasPrefix(k.name, "__Host-Http-") ==> z.jar[k].httpOnly
  {
    EmptyInv(cx);
    EveryJarOk(cx, ttl, Created(now, wall), es, z);
    StoredObeys(cx, z.jar[k]);
  }

  /** The snapshot round trip, for every jar a context can reach. */
  lemma ReachableRoundTrip(cx: Context, ttl: Ttl, now: int, wall: int, es: seq<Event>, z: State, l0: seq<Cookie>,
      l2: seq<Cookie>, t0: int, t1: int, t2: int)
    requires Proper(cx) && Reaches(cx, ttl, Created(now, wall), es, z) && Lists(z.jar, l0) && 0 <= t0 <= t1 <= t2
    ensures var rs := Export(l0, t0); var back := Import(cx, Snapshot(cx.site, rs), t1);
            && (back.Ok? <==> forall i :: 0 <= i < |rs| ==> RecordShapeOk(rs[i]))
            && (back.Ok? && Lists(back.value, l2) ==>
                (Export(l2, t2) == rs <==> forall i :: 0 <= i < |rs| ==> Snapshots.Ahead(rs[i], t2)))
  {
    EmptyInv(cx);
    EveryJarOk(cx, ttl, Created(now, wall), es, z);
    Snapshots.RoundTrip(cx, z.jar, l0, l2, t0, t1, t2);
  }

  // ----- how long a context lives -----

  /** A lifetime is over when it was closed, untouched for the idle time, or has reached its full age. */
  lemma OverMeans(ttl: Ttl, l: Lifetime, now: int)
    requires l.created <= l.touched <= now
    ensures Over(ttl, l, now) <==> l.closed || now - l.touched >= ttl.idle || now - l.created >= ttl.maxAge
  {
  }

  lemma {:induction false} CreationStays(cx: Context, ttl: Ttl, s: State, es: seq<Event>, z: State)
    requires Reaches(cx, ttl, s, es, z) && s.lifetime.created <= s.lifetime.touched <= s.now
    ensures z.lifetime.created == s.lifetime.created <= z.lifetime.touched <= z.now
    decreases |es|
  {
    if es != [] { CreationStays(cx, ttl, Step(cx, ttl, s, es[0]).state, es[1..], z); }
  }

  /** However often a context is touched, with whatever readings, it is over at its maximal age. */
  lemma MaxAgeEndsEveryRun(cx: Context, ttl: Ttl, now: int, wall: int, es: seq<Event>, z: State)
    requires Reaches(cx, ttl, Created(now, wall), es, z) && z.now - now >= ttl.maxAge
    ensures Over(ttl, z.lifetime, z.now)
  {
    CreationStays(cx, ttl, Created(now, wall), es, z);
    OverMeans(ttl, z.lifetime, z.now);
  }

  /** Whoever finds the context over empties the jar: at the door, before a reply, and on the way out. */
  lemma OverLosesCookies(cx: Context, ttl: Ttl, s: State, read: int)
    ensures Step(cx, ttl, s, Enter(read)).Next? && Over(ttl, s.lifetime, read) ==>
              Step(cx, ttl, s, Enter(read)).state == s.(jar := map[], wiped := true)
    ensures Step(cx, ttl, s, Finish(read)).Next? && Over(ttl, s.lifetime, read) ==>
              Step(cx, ttl, s, Finish(read)).state == s.(jar := map[], wiped := true, phase := Failed)
    ensures Step(cx, ttl, s, Leave).Next? && Over(ttl, s.lifetime, s.now) ==>
              Step(cx, ttl, s, Leave).state.jar == map[]
  {
  }

  // ----- what a revival does -----

  ghost predicate AnyBroken(cx: Context, ttl: Ttl, s: State) {
    exists es, z :: Reaches(cx, ttl, s, es, z) && Calm(cx, ttl, s, es) && !AllSeen(cx, z)
  }

  lemma EnterAndObserve(cx: Context, ttl: Ttl, s: State) returns (es: seq<Event>, z: State)
    requires s.phase == Unlocked && s.lifetime.created <= s.now && !Over(ttl, s.lifetime, s.now)
    ensures Reaches(cx, ttl, s, es, z) && Calm(cx, ttl, s, es)
    ensures z.log == s.log && z.seen == s.seen + [Current(s, false)]
  {
    var t := Step(cx, ttl, s, Enter(s.now)).state;
    z := Step(cx, ttl, t, Observe).state;
    es := [Enter(s.now), Observe];
    assert es[1..] == [Observe] && Reaches(cx, ttl, t, [Observe], z) && Calm(cx, ttl, t, [Observe]);
  }

  /** From a wiped context someone is let into, a few calm steps show the old revision with no cookies. */
  lemma RevivedObserves(cx: Context, ttl: Ttl, s: State, e: Event) returns (es: seq<Event>, z: State)
    requires Inv(cx, ttl, s) && s.wiped && s.jar == map[] && Step(cx, ttl, s, e).Next? && Revives(ttl, s, e)
    ensures Reaches(cx, ttl, Step(cx, ttl, s, e).state, es, z) && Calm(cx, ttl, Step(cx, ttl, s, e).state, es)
    ensures z.log == s.log && z.seen == s.seen + [Observation(s.revision, s.wall, map[], false)]
  {
    var t := Step(cx, ttl, s, e).state;
    assert Live(map[], s.wall) == map[];
    if e.Enter? {
      es, z := [Observe], Step(cx, ttl, t, Observe).state;
    } else if s.phase == Unlocked {
      es, z := EnterAndObserve(cx, ttl, t);
    } else {
      var u := Step(cx, ttl, t, Leave).state;
      var fs;
      fs, z := EnterAndObserve(cx, ttl, u);
      es := [Leave] + fs;
      assert es[1..] == fs;
    }
  }

  /**
   Exactly when a revision loses its meaning.  Let a calm run have wiped the jar while the committed
   mutations still leave a live cookie.  After one more event, some calm continuation observes
   contents other than those of the revision it names if and only if that event revived the context.
   */
  lemma WhenARevisionLies(cx: Context, ttl: Ttl, now: int, wall: int, es: seq<Event>, s: State, e: Event)
    requires Reaches(cx, ttl, Created(now, wall), es, s) && Calm(cx, ttl, Created(now, wall), es)
    requires s.wiped && Live(Replay(cx, s.log), s.wall) != map[] && Step(cx, ttl, s, e).Next?
    ensures AnyBroken(cx, ttl, Step(cx, ttl, s, e).state) <==> Revives(ttl, s, e)
  {
    CreatedInv(cx, ttl, now, wall);
    EveryRun(cx, ttl, Created(now, wall), es, s);
    WipedIsEmpty(cx, ttl, Created(now, wall), es, s);
    var t := Step(cx, ttl, s, e).state;
    if Revives(ttl, s, e) {
      var fs, z := RevivedObserves(cx, ttl, s, e);
      var o := z.seen[|s.seen|];
      assert z.log[..o.revision] == s.log;
      assert !Seen(cx, z.log, z.wall, o);
      assert !AllSeen(cx, z);
    } else {
      StepInv(cx, ttl, s, e);
      forall fs, z | Reaches(cx, ttl, t, fs, z) && Calm(cx, ttl, t, fs) ensures AllSeen(cx, z) {
        EveryRun(cx, ttl, t, fs, z);
      }
    }
  }

  lemma {:induction false} WipedIsEmpty(cx: Context, ttl: Ttl, s: State, es: seq<Event>, z: State)
    requires Inv(cx, ttl, s) && Reaches(cx, ttl, s, es, z) && Calm(cx, ttl, s, es)
    requires s.wiped ==> s.jar == map[]
    ensures z.wiped ==> z.jar == map[]
    decreases |es|
  {
    if es != [] {
      StepInv(cx, ttl, s, es[0]);
      WipedIsEmpty(cx, ttl, Step(cx, ttl, s, es[0]).state, es[1..], z);
    }
  }

  lemma {:induction false} Extend(cx: Context, ttl: Ttl, s: State, es: seq<Event>, m: State, e: Event)
    requires Reaches(cx, ttl, s, es, m) && Step(cx, ttl, m, e).Next?
    ensures Reaches(cx, ttl, s, es + [e], Step(cx, ttl, m, e).state)
    decreases |es|
  {
    if es != [] {
      Extend(cx, ttl, Step(cx, ttl, s, es[0]).state, es[1..], m, e);
      assert (es + [e])[1..] == es[1..] + [e];
    } else {
      assert ([] + [e])[1..] == [];
    }
  }

  const TTL: Ttl := Ttl(10, 100)

  const URL: Url := Url(true, "h", "/x;y/z")

  lemma Then(cx: Context, es: seq<Event>, m: State, e: Event) returns (fs: seq<Event>, z: State)
    requires Reaches(cx, TTL, Created(0, 0), es, m) && Step(cx, TTL, m, e).Next?
    ensures Reaches(cx, TTL, Created(0, 0), fs, z) && Step(cx, TTL, m, e) == Next(z)
  {
    Extend(cx, TTL, Created(0, 0), es, m, e);
    fs, z := es + [e], Step(cx, TTL, m, e).state;
  }

  function OneCookie(): Jar {
    map[KeyOf(Snapshots.STORED) := Snapshots.STORED]
  }

  const SETTING: Mutation := Setting(URL, ["a=1"], 0)

  lemma PlainPerforms(hosts: Hosts)
    ensures Perform(Snapshots.Plain(hosts), map[], SETTING) == Ok(OneCookie())
  {
    Snapshots.PlainStores(hosts, 0);
    assert Snapshots.Plain(hosts).origins[0].host == URL.host;
  }

  const OBSERVED: Observation := Observation(1, 0, OneCookie(), true)

  ghost predicate Stores(cx: Context) {
    Perform(cx, map[], SETTING) == Ok(OneCookie())
  }

  function Answering(): State {
    Created(0, 0).(jar := OneCookie(), revision := 1, log := [SETTING], phase := Replying(OBSERVED))
  }

  lemma WriteStep(cx: Context)
    requires Stores(cx)
    ensures Step(cx, TTL, Created(0, 0).(phase := Held), Write(SETTING, 0)) == Next(Answering())
  {
    assert Live(OneCookie(), 0) == OneCookie();
    assert [] + [SETTING] == [SETTING];
  }

  lemma Answers(cx: Context) returns (es: seq<Event>)
    requires Stores(cx)
    ensures Reaches(cx, TTL, Created(0, 0), es, Answering())
  {
    var m;
    es, m := Then(cx, [], Created(0, 0), Enter(0));
    WriteStep(cx);
    es, m := Then(cx, es, m, Write(SETTING, 0));
  }

  /** Revision 1 was answered with the cookie, and then nothing happened for the idle time. */
  function Idled(): State {
    Answering().(phase := Unlocked, seen := [OBSERVED], now := 10)
  }

  lemma FinishSteps(cx: Context) returns (m: State)
    ensures Step(cx, TTL, Answering(), Finish(0)) == Next(m) && m == Answering().(phase := Held, seen := [OBSERVED])
    ensures Step(cx, TTL, m, Leave) == Next(m.(phase := Unlocked))
  {
    m := Answering().(phase := Held, seen := [OBSERVED]);
    assert [] + [OBSERVED] == [OBSERVED];
  }

  lemma Idles(cx: Context, es: seq<Event>) returns (fs: seq<Event>)
    requires Reaches(cx, TTL, Created(0, 0), es, Answering())
    ensures Reaches(cx, TTL, Created(0, 0), fs, Idled())
  {
    var m := FinishSteps(cx);
    fs, m := Then(cx, es, Answering(), Finish(0));
    fs, m := Then(cx, fs, m, Leave);
    fs, m := Then(cx, fs, m, Tick(10, 0));
  }

  lemma ReviveSteps(cx: Context) returns (t: State, u: State)
    ensures Step(cx, TTL, Idled(), Enter(10)) == Next(t) && Step(cx, TTL, t, Touch(5)) == Next(u)
    ensures u == Wipe(Idled()).(lifetime := Lifetime(0, 5, false))
    ensures Step(cx, TTL, u, Enter(10)) == Next(u.(lifetime := Lifetime(0, 10, false), phase := Held))
  {
    t := Wipe(Idled());
    u := t.(lifetime := Lifetime(0, 5, false));
  }

  lemma Forgets(cx: Context, es: seq<Event>) returns (fs: seq<Event>, z: State)
    requires Reaches(cx, TTL, Created(0, 0), es, Idled())
    ensures Reaches(cx, TTL, Created(0, 0), fs, z)
    ensures z.seen == [OBSERVED, Observation(1, 0, map[], false)]
  {
    var t, u := ReviveSteps(cx);
    fs, z := Then(cx, es, Idled(), Enter(10));
    fs, z := Then(cx, fs, t, Touch(5));
    fs, z := Then(cx, fs, u, Enter(10));
    assert Live(map[], 0) == map[];
    fs, z := Then(cx, fs, z, Observe);
  }

  /**
   A run from creation that ends with two observations of revision 1, one with the cookie and one
   without: the idle time passes, a command finds the context over and empties the jar, a request
   that read its clock earlier touches the lifetime, and the next command is let in.
   */
  lemma StaleTouchForgetsContents(hosts: Hosts) returns (cx: Context, es: seq<Event>, z: State)
    ensures cx == Snapshots.Plain(hosts) && Reaches(cx, TTL, Created(0, 0), es, z)
    ensures z.seen == [OBSERVED, Observation(1, 0, map[], false)] && OBSERVED.contents == OneCookie()
  {
    PlainPerforms(hosts);
    cx := Snapshots.Plain(hosts);
    es := Answers(cx);
    es := Idles(cx, es);
    es, z := Forgets(cx, es);
  }

  // ----- the context object -----

  datatype Reply = Revision(number: nat) | Conflict | Full | Refused | Gone

  datatype Outcome = Outcome(reply: Reply, revision: nat, jar: Jar)

  /** What `set` and `import` do, given how the jar takes the mutation and whether the context is over by then. */
  function WriteOutcome(jar: Jar, revision: nat, done: Result<Jar>, expected: nat, over: bool): Outcome {
    if revision != expected then Outcome(Conflict, revision, jar)
    else if revision + 1 > MAX_REVISION then Outcome(Full, revision, jar)
    else if !done.Ok? then Outcome(Refused, revision, jar)
    else if over then Outcome(Gone, revision + 1, map[])
    else Outcome(Revision(revision + 1), revision + 1, done.value)
  }

  /** What `absorb` does, given whether the context was over at the start and at the end. */
  function AbsorbOutcome(jar: Jar, revision: nat, done: Result<Jar>, empty: bool, overBefore: bool,
      overAfter: bool): Outcome {
    if overBefore then Outcome(Gone, revision, jar)
    else if empty then Outcome(Revision(revision), revision, jar)
    else if revision + 1 > MAX_REVISION then Outcome(Full, revision, jar)
    else if !done.Ok? then Outcome(Refused, revision, jar)
    else if overAfter then Outcome(Gone, revision, map[])
    else Outcome(Revision(revision + 1), revision + 1, done.value)
  }

  /** Either way the jar is the old one, empty, or the whole mutation; so it keeps its bounds and policies. */
  lemma OutcomesKeepInv(cx: Context, jar: Jar, m: Mutation, o: Outcome)
    requires Proper(cx) && CookieJar.Inv(cx, jar)
    requires
      var done := Perform(cx, jar, m);
      || (exists revision, expected, over :: o == WriteOutcome(jar, revision, done, expected, over))
      || (exists revision, empty, before, after :: o == AbsorbOutcome(jar, revision, done, empty, before, after))
    ensures CookieJar.Inv(cx, o.jar)
  {
    PerformKeepsInv(cx, jar, m);
    EmptyInv(cx);
    assert o.jar == jar || o.jar == map[] || Perform(cx, jar, m) == Ok(o.jar);
  }

  /** The caller is told why: a stale write conflicts, and no refusal changes anything. */
  lemma WriteAnswers(jar: Jar, revision: nat, done: Result<Jar>, expected: nat, over: bool)
    ensures var o := WriteOutcome(jar, revision, done, expected, over);
            && (o.reply == Conflict <==> expected != revision)
            && (o.reply.Conflict? || o.reply.Full? || o.reply.Refused? ==> o.revision == revision && o.jar == jar)
            && (o.reply.Revision? ==> o.reply.number == o.revision == expected + 1 && done == Ok(o.jar))
  {
  }

  /** The two steps of a command, taken without an interruption, are the outcomes above. */
  lemma WriteThenFinish(cx: Context, ttl: Ttl, s: State, m: Mutation, expected: nat)
    requires s.phase == Held
    ensures var t := Written(cx, s, m, expected);
            var z := if t.phase.Replying? then Finished(ttl, t, s.now) else t;
            var o := WriteOutcome(s.jar, s.revision, Perform(cx, s.jar, m), expected, Over(ttl, s.lifetime, s.now));
            o.revision == z.revision && o.jar == z.jar && (o.reply.Revision? <==> |z.seen| == |s.seen| + 1)
  {
  }

  lemma ReceiveThenFinish(cx: Context, ttl: Ttl, s: State, m: Mutation)
    requires s.phase == Held
    ensures var t := Received(cx, ttl, s, m, s.now);
            var z := if t.phase.Absorbed? then Finished(ttl, t, s.now) else t;
            var o := AbsorbOutcome(s.jar, s.revision, Perform(cx, s.jar, m), false, Over(ttl, s.lifetime, s.now),
                Over(ttl, t.lifetime, s.now));
            o.revision == z.revision && o.jar == z.jar && (o.reply.Revision? <==> |z.seen| == |s.seen| + 1)
  {
  }

  class ManagedContext {
    const ttl: Ttl
    const cx: Context
    const jar: ManagedJar
    const created: int
    var touched: int
    var closed: bool
    var revision: nat

    constructor (cx: Context, ttl: Ttl, now: int)
      ensures this.cx == cx && this.ttl == ttl && fresh(jar) && jar.cx == cx && jar.stores == map[]
      ensures View() == Lifetime(now, now, false) && revision == 0
    {
      this.cx, this.ttl, created, touched, closed, revision := cx, ttl, now, now, false, 0;
      jar := new ManagedJar(cx);
    }

    function View(): Lifetime
      reads this
    {
      Lifetime(created, touched, closed)
    }

    method TouchAt(now: int) returns (ok: bool)
      modifies this`touched
      ensures ok <==> !Over(ttl, old(View()), now)
      ensures View() == Touched(ttl, old(View()), now)
    {
      if closed || Since(now, created) >= Deadline(ttl, View()) {
        return false;
      }
      touched := now;
      return true;
    }

    method Mutate(m: Mutation) returns (r: Result<()>)
      requires jar.cx == cx && Keyed(jar.stores)
      modifies jar
      ensures Keyed(jar.stores)
      ensures r.Ok? <==> Perform(cx, old(jar.stores), m).Ok?
      ensures jar.stores == if r.Ok? then Perform(cx, old(jar.stores), m).value else old(jar.stores)
    {
      match m
      case Setting(url, texts, at) =>
        if !Allowed(cx, url) {
          return Invalid;
        }
        r := jar.ApplyTexts(url, texts, false, at);
      case Importing(snapshot, at) => r := jar.ImportSnapshot(snapshot, at);
      case Absorbing(url, headers, at) =>
        if !Allowed(cx, url) {
          return Invalid;
        }
        r := jar.AbsorbHeaders(url, headers, at);
    }

    /** The last look at the lifetime before a reply: a context that is over loses its cookies. */
    method FinalLook(now: int) returns (alive: bool)
      modifies jar
      ensures alive <==> !Over(ttl, View(), now)
      ensures jar.stores == if alive then old(jar.stores) else map[]
    {
      alive := !Over(ttl, View(), now);
      if !alive {
        jar.Clear();
      }
    }

    /** `set` and `import`: the revision is stored before the final look at the lifetime. */
    method WriteCookies(m: Mutation, expected: nat, now: int) returns (reply: Reply)
      requires jar.cx == cx && Keyed(jar.stores)
      modifies jar, this`revision
      ensures Keyed(jar.stores)
      ensures Outcome(reply, revision, jar.stores)
           == WriteOutcome(old(jar.stores), old(revision), Perform(cx, old(jar.stores), m), expected,
               Over(ttl, View(), now))
    {
      if revision != expected {
        return Conflict;
      }
      var next := revision + 1;
      if next > MAX_REVISION {
        return Full;
      }
      ghost var done := Perform(cx, jar.stores, m);
      var r := Mutate(m);
      if !r.Ok? {
        return Refused;
      }
      revision := next;
      var alive := FinalLook(now);
      return if alive then Revision(next) else Gone;
    }

    /** `absorb`: the revision is stored after the final look, so a dead context keeps its number. */
    method AbsorbCookies(m: Mutation, start: int, end: int) returns (reply: Reply)
      requires m.Absorbing? && jar.cx == cx && Keyed(jar.stores)
      modifies jar, this`revision, this`touched
      ensures Keyed(jar.stores) && View() == Touched(ttl, old(View()), start)
      ensures Outcome(reply, revision, jar.stores)
           == AbsorbOutcome(old(jar.stores), old(revision), Perform(cx, old(jar.stores), m), m.headers == [],
                            Over(ttl, old(View()), start), Over(ttl, View(), end))
    {
      var alive := TouchAt(start);
      if !alive {
        return Gone;
      }
      if m.headers == [] {
        return Revision(revision);
      }
      var next := revision + 1;
      if next > MAX_REVISION {
        return Full;
      }
      ghost var done := Perform(cx, jar.stores, m);
      var r := Mutate(m);
      if !r.Ok? {
        return Refused;
      }
      alive := FinalLook(end);
      if !alive {
        return Gone;
      }
      revision := next;
      return Revision(next);
    }
  }
}
