/**
 Request records and the worker that owns them (src/registry.rs, src/handlers.rs): a request may be
 cancelled, time out or lose its worker at any await, and its terminal frame and every later status
 must tell one story.  Elapsed times are arbitrary numbers supplied by the events.
 */
module RequestRecords {
  import opened Wrappers

  datatype Phase = Queued | Preparing | Upstream | Body | Complete

  datatype Delivery = NotStarted | PossiblySent | ResponseStarted

  datatype Diagnostics = Diagnostics(
    phase: Phase,
    delivery: Delivery,
    queueMs: nat,
    headersMs: Option<nat>,
    bodyMs: Option<nat>,
    totalMs: nat,
    requestBytes: nat,
    responseBytes: nat,
    tlsProfile: string,
    clientReused: Option<bool>,
    cookieRevision: Option<nat>)

  datatype Code = Cancelled | Timeout | ContextNotFound | BodyTooLarge | Other(number: nat)

  datatype Error = Error(code: Code, diagnostics: Option<Diagnostics>)

  datatype Progress = Progress(diagnostics: Diagnostics, finished: bool, error: Option<Error>)

  datatype RequestState = IsQueued | IsActive | IsComplete | IsFailed

  datatype Status = Status(state: RequestState, diagnostics: Diagnostics, error: Option<Error>)

  // ----- the record -----

  /** The updates the worker makes. */
  datatype Change =
    | Start(queueMs: nat)
    | Own(profile: Option<string>)
    | Cookies(revision: nat)
    | Dispatch
    | Upload(bytes: nat)
    | Headers(elapsed: nat)
    | Respond(cookieRevision: Option<nat>)
    | Download(bytes: nat)
    | Measure(elapsed: nat)

  function Edit(d: Diagnostics, c: Change): Diagnostics {
    match c
    case Start(ms) => d.(queueMs := ms, phase := Preparing)
    case Own(None) => d.(clientReused := Some(false))
    case Own(Some(profile)) => d.(tlsProfile := profile, clientReused := None)
    case Cookies(revision) => d.(cookieRevision := Some(revision))
    case Dispatch => d.(phase := Upstream, delivery := PossiblySent)
    case Upload(bytes) => d.(requestBytes := bytes)
    case Headers(elapsed) => d.(headersMs := Some(elapsed), delivery := ResponseStarted)
    case Respond(revision) => d.(phase := Body, cookieRevision := revision)
    case Download(bytes) => d.(responseBytes := bytes)
    case Measure(elapsed) =>
      if d.headersMs.None? then d
      else d.(bodyMs := Some(if elapsed <= d.headersMs.value then 0 else elapsed - d.headersMs.value))
  }

  function Update(p: Progress, c: Change): Progress {
    if p.finished then p else p.(diagnostics := Edit(p.diagnostics, c))
  }

  function Timed(d: Diagnostics, elapsed: nat, waited: nat): Diagnostics {
    d.(totalMs := elapsed, queueMs := if d.phase == Queued then waited else d.queueMs)
  }

  function Finish(p: Progress, error: Option<Error>, elapsed: nat, waited: nat): Progress {
    if p.finished then p
    else
      var timed := Timed(p.diagnostics, elapsed, waited);
      match error
      case None => Progress(timed.(phase := Complete), true, None)
      case Some(e) => Progress(timed, true, Some(e.(diagnostics := Some(timed))))
  }

  function StatusOf(p: Progress): Status {
    var state :=
      if p.error.Some? then IsFailed
      else if p.finished then IsComplete
      else if p.diagnostics.phase == Queued then IsQueued
      else IsActive;
    Status(state, p.diagnostics, p.error)
  }

  /** What a status request reports; running clocks are filled in until the record is finished. */
  function StatusAt(p: Progress, elapsed: nat, waited: nat): Status {
    if p.finished then StatusOf(p) else StatusOf(p).(diagnostics := Timed(p.diagnostics, elapsed, waited))
  }

  // ----- worker, deadline, cancellation and abort -----

  datatype Frame = Failure(error: Error) | Success(diagnostics: Diagnostics)

  function FrameOf(s: Status): Frame {
    if s.error.Some? then Failure(s.error.value) else Success(s.diagnostics)
  }

  /** Where the execution future is; `Joined` runs the upload and the upstream request side by side. */
  datatype Exec =
    | Waiting
    | Connecting
    | Building
    | Joined(uploaded: bool, polled: bool, responded: bool)
    | Absorbing
    | Streaming(count: nat)
    | Returned(error: Option<Error>)

  datatype Worker = Unspawned | Running(exec: Exec) | Ended

  datatype State = State(
    progress: Progress,
    worker: Worker,
    cancelled: bool,
    late: bool,
    sendPolled: bool,
    received: nat,
    uploaded: nat,
    revision: Option<nat>,
    terminal: Option<Frame>,
    emitted: Option<Frame>)

  function Registered(d: Diagnostics): State {
    var start := d.(phase := Queued, delivery := NotStarted, headersMs := None, requestBytes := 0, responseBytes := 0,
                    cookieRevision := None);
    State(Progress(start, false, None), Unspawned, false, false, false, 0, 0, None, None, None)
  }

  datatype Event =
    | Reject(code: Code, elapsed: nat, waited: nat)
    | Spawn
    | Cancel
    | Expire
    | Admitted(waited: nat)
    | Owned(profile: Option<string>)
    | ReadCookies(revision: nat)
    | Dispatched
    | Uploaded(bytes: nat, last: bool)
    | PollSend
    | HeadersArrive(elapsed: nat)
    | Join
    | Absorbed(cookieRevision: Option<nat>)
    | Chunk(size: nat, limit: nat)
    | Return
    | Fail(code: Code)
    | Stop(elapsed: nat, waited: nat, fits: bool)
    | Abort(elapsed: nat, waited: nat)
    | Emit

  datatype Effect = Next(state: State) | Disabled

  function Run(s: State, exec: Exec): State {
    s.(worker := Running(exec))
  }

  function Note(s: State, c: Change): State {
    s.(progress := Update(s.progress, c))
  }

  /** Steps of the execution future; each runs from one await to the next. */
  function Execute(s: State, exec: Exec, e: Event): Effect {
    match e
    case Admitted(ms) => if exec != Waiting then Disabled else Next(Run(Note(s, Start(ms)), Connecting))
    case Owned(profile) => if exec != Connecting then Disabled else Next(Run(Note(s, Own(profile)), Building))
    case ReadCookies(revision) =>
      if exec != Building then Disabled else Next(Note(s.(revision := Some(revision)), Cookies(revision)))
    case Dispatched => if exec != Building then Disabled else Next(Run(Note(s, Dispatch), Joined(false, false, false)))
    case Uploaded(bytes, last) =>
      if !exec.Joined? || exec.uploaded then Disabled
      else if last then Next(Run(s, exec.(uploaded := true)))
      else Next(Note(s.(uploaded := bytes), Upload(bytes)))
    case PollSend => if !exec.Joined? then Disabled else Next(Run(s.(sendPolled := true), exec.(polled := true)))
    case HeadersArrive(elapsed) =>
      if !exec.Joined? || !exec.polled || exec.responded then Disabled
      else Next(Run(Note(s, Headers(elapsed)), exec.(responded := true)))
    case Join => if !exec.Joined? || !exec.uploaded || !exec.responded then Disabled else Next(Run(s, Absorbing))
    case Absorbed(revision) =>
      if exec != Absorbing then Disabled
      else Next(Run(Note(s.(revision := revision), Respond(revision)), Streaming(0)))
    case Chunk(size, limit) =>
      if !exec.Streaming? then Disabled
      else
        var count := exec.count + size;
        var next := if count > limit then Returned(Some(Error(BodyTooLarge, None))) else Streaming(count);
        Next(Run(Note(s.(received := s.received + size), Download(count)), next))
    case Return => if !exec.Streaming? then Disabled else Next(Run(s, Returned(None)))
    case Fail(code) => if exec.Returned? then Disabled else Next(Run(s, Returned(Some(Error(code, None)))))
    case _ => Disabled
  }

  /** The biased select: cancellation first, then the deadline, then the result. */
  function Verdict(s: State, exec: Exec): Option<Option<Error>> {
    if s.cancelled then Some(Some(Error(Cancelled, None)))
    else if s.late then Some(Some(Error(Timeout, None)))
    else if exec.Returned? then Some(exec.error)
    else None
  }

  function Stopped(s: State, error: Option<Error>, elapsed: nat, waited: nat, fits: bool): State {
    var p := Finish(Update(s.progress, Measure(elapsed)), error, elapsed, waited);
    s.(progress := p, worker := Ended, cancelled := true, terminal := if fits then Some(FrameOf(StatusOf(p))) else None)
  }

  function Apply(s: State, e: Event): Effect {
    match e
    case Reject(code, elapsed, waited) =>
      if s.worker != Unspawned then Disabled
      else Next(s.(progress := Finish(s.progress, Some(Error(code, None)), elapsed, waited), worker := Ended))
    case Spawn => if s.worker != Unspawned then Disabled else Next(Run(s, Waiting))
    case Cancel => Next(s.(cancelled := true))
    case Expire => Next(s.(late := true))
    case Stop(elapsed, waited, fits) =>
      if !s.worker.Running? || Verdict(s, s.worker.exec).None? then Disabled
      else Next(Stopped(s, Verdict(s, s.worker.exec).value, elapsed, waited, fits))
    case Abort(elapsed, waited) =>
      if !s.worker.Running? then Disabled
      else Next(s.(progress := Finish(s.progress, Some(Error(Cancelled, None)), elapsed, waited), worker := Ended,
          cancelled := true))
    case Emit =>
      if s.worker != Ended || s.terminal.None? then Disabled else Next(s.(emitted := s.terminal, terminal := None))
    case _ => if !s.worker.Running? then Disabled else Execute(s, s.worker.exec, e)
  }

  ghost predicate Reaches(s: State, es: seq<Event>, z: State)
    decreases |es|
  {
    if es == [] then s == z else Apply(s, es[0]).Next? && Reaches(Apply(s, es[0]).state, es[1..], z)
  }

  // ----- the invariant -----

  predicate BeforeDispatch(exec: Exec) {
    exec == Waiting || exec == Connecting || exec == Building
  }

  predicate AfterHeaders(exec: Exec) {
    exec == Absorbing || exec.Streaming? || (exec.Joined? && exec.responded)
  }

  ghost predicate Honest(s: State) {
    && (s.sendPolled ==> s.progress.diagnostics.delivery != NotStarted)
    && (s.worker == Unspawned ==> s.progress.diagnostics.delivery == NotStarted)
    && (s.worker.Running? && BeforeDispatch(s.worker.exec) ==> s.progress.diagnostics.delivery == NotStarted)
    && (s.worker.Running? && s.worker.exec.Joined? ==>
          s.progress.diagnostics.delivery == if s.worker.exec.responded then ResponseStarted else PossiblySent)
    && (s.worker.Running? && AfterHeaders(s.worker.exec) ==> s.progress.diagnostics.delivery == ResponseStarted)
    && (s.progress.diagnostics.delivery == ResponseStarted ==> s.sendPolled)
    && (s.worker.Running? && s.worker.exec.Joined? && s.worker.exec.responded ==> s.worker.exec.polled)
    && (s.worker.Running? && s.worker.exec.Joined? && s.worker.exec.polled ==> s.sendPolled)
  }

  ghost predicate Final(s: State) {
    && (s.progress.finished <==> s.worker == Ended)
    && (s.progress.error.Some? ==>
          s.progress.finished && s.progress.error.value.diagnostics == Some(s.progress.diagnostics))
    && (s.progress.finished && s.progress.error.None?
        ==> s.progress.diagnostics.phase == Complete && s.progress.diagnostics.delivery == ResponseStarted)
    && (s.terminal.Some? ==> s.progress.finished && s.terminal.value == FrameOf(StatusOf(s.progress)))
    && (s.emitted.Some? ==> s.terminal.None? && s.progress.finished && s.emitted.value == FrameOf(StatusOf(s.progress)))
    && (s.worker.Running? && s.worker.exec.Returned? && s.worker.exec.error.None?
        ==> s.progress.diagnostics.delivery == ResponseStarted)
  }

  /**
   The bytes a record reports are those that arrived; `received` counts them independently of the loop's
   own count.
   */
  ghost predicate Counted(s: State) {
    && s.progress.diagnostics.responseBytes == s.received
    && s.progress.diagnostics.requestBytes == s.uploaded
    && s.progress.diagnostics.cookieRevision == s.revision
    && (s.worker.Running? && s.worker.exec.Streaming? ==> s.worker.exec.count == s.received)
    && (s.worker == Unspawned || (s.worker.Running? && !s.worker.exec.Streaming? && !s.worker.exec.Returned?)
        ==> s.received == 0)
    && (s.progress.diagnostics.delivery == ResponseStarted <==> s.progress.diagnostics.headersMs.Some?)
  }

  /** The phase a record reports is where the execution is. */
  ghost predicate InPhase(s: State) {
    && (s.worker == Unspawned ==> s.progress.diagnostics.phase == Queued)
    && (s.worker.Running? ==>
          match s.worker.exec
          case Waiting => s.progress.diagnostics.phase == Queued
          case Connecting => s.progress.diagnostics.phase == Preparing
          case Building => s.progress.diagnostics.phase == Preparing
          case Joined(_, _, _) => s.progress.diagnostics.phase == Upstream
          case Absorbing => s.progress.diagnostics.phase == Upstream
          case Streaming(_) => s.progress.diagnostics.phase == Body
          case Returned(error) => error.None? ==> s.progress.diagnostics.phase == Body)
    && (s.progress.diagnostics.phase == Complete ==> s.progress.finished && s.progress.error.None?)
  }

  ghost predicate Inv(s: State) {
    Honest(s) && Final(s) && Counted(s) && InPhase(s)
  }

  function Rank(d: Delivery): nat {
    match d case NotStarted => 0 case PossiblySent => 1 case ResponseStarted => 2
  }

  lemma ExecuteHonest(s: State, e: Event)
    requires Inv(s) && s.worker.Running? && Execute(s, s.worker.exec, e).Next?
    ensures Honest(Execute(s, s.worker.exec, e).state)
    ensures Rank(s.progress.diagnostics.delivery) <= Rank(Execute(s, s.worker.exec,
              e).state.progress.diagnostics.delivery)
  {
  }

  lemma ExecuteFinal(s: State, e: Event)
    requires Inv(s) && s.worker.Running? && Execute(s, s.worker.exec, e).Next?
    ensures Final(Execute(s, s.worker.exec, e).state)
  {
  }

  lemma ExecuteCounted(s: State, e: Event)
    requires Honest(s) && Final(s) && Counted(s) && s.worker.Running? && Execute(s, s.worker.exec, e).Next?
    ensures Counted(Execute(s, s.worker.exec, e).state)
  {
  }

  lemma ExecutePhase(s: State, e: Event)
    requires InPhase(s) && Final(s) && s.worker.Running? && Execute(s, s.worker.exec, e).Next?
    ensures InPhase(Execute(s, s.worker.exec, e).state)
    ensures PhaseRank(s.progress.diagnostics.phase)
         <= PhaseRank(Execute(s, s.worker.exec, e).state.progress.diagnostics.phase)
  {
  }

  function PhaseRank(p: Phase): nat {
    match p case Queued => 0 case Preparing => 1 case Upstream => 2 case Body => 3 case Complete => 4
  }

  lemma StepInv(s: State, e: Event)
    requires Inv(s) && Apply(s, e).Next?
    ensures Inv(Apply(s, e).state)
    ensures Rank(s.progress.diagnostics.delivery) <= Rank(Apply(s, e).state.progress.diagnostics.delivery)
    ensures PhaseRank(s.progress.diagnostics.phase) <= PhaseRank(Apply(s, e).state.progress.diagnostics.phase)
    ensures s.progress.finished ==>
              Apply(s, e).state.progress == s.progress && Apply(s, e).state.sendPolled == s.sendPolled
  {
    if s.worker.Running? && Execute(s, s.worker.exec, e).Next? {
      ExecuteHonest(s, e);
      ExecuteFinal(s, e);
      ExecuteCounted(s, e);
      ExecutePhase(s, e);
    }
  }

  /** Over every stretch of every run delivery and phase only move forward, and a finished record never changes. */
  lemma {:induction false} EveryRun(s: State, es: seq<Event>, z: State)
    requires Inv(s) && Reaches(s, es, z)
    ensures Inv(z) && Rank(s.progress.diagnostics.delivery) <= Rank(z.progress.diagnostics.delivery)
    ensures PhaseRank(s.progress.diagnostics.phase) <= PhaseRank(z.progress.diagnostics.phase)
    ensures s.progress.finished ==> z.progress == s.progress && z.sendPolled == s.sendPolled
    decreases |es|
  {
    if es != [] {
      StepInv(s, es[0]);
      EveryRun(Apply(s, es[0]).state, es[1..], z);
    }
  }

  /**
   The terminal frame, once emitted, equals what any later status request reports: the same error
   with the same diagnostics, or the same diagnostics of a complete request.
   */
  lemma TerminalIsStable(d: Diagnostics, es: seq<Event>, s: State, fs: seq<Event>, z: State, elapsed: nat, waited: nat)
    requires Reaches(Registered(d), es, s) && s.emitted.Some? && Reaches(s, fs, z)
    ensures FrameOf(StatusAt(z.progress, elapsed, waited)) == s.emitted.value && z.emitted == s.emitted
    ensures match s.emitted.value
            case Failure(error) =>
              && StatusAt(z.progress, elapsed, waited) == Status(IsFailed, z.progress.diagnostics, Some(error))
              && error.diagnostics == Some(z.progress.diagnostics)
            case Success(diagnostics) =>
              && StatusAt(z.progress, elapsed, waited) == Status(IsComplete, diagnostics, None)
              && diagnostics.phase == Complete && diagnostics.delivery == ResponseStarted
              && diagnostics.responseBytes == s.received && diagnostics.requestBytes == s.uploaded
              && diagnostics.cookieRevision == s.revision
  {
    EveryRun(Registered(d), es, s);
    EveryRun(s, fs, z);
    EmittedStays(s, fs, z);
  }

  lemma {:induction false} EmittedStays(s: State, fs: seq<Event>, z: State)
    requires Inv(s) && s.emitted.Some? && s.terminal.None? && Reaches(s, fs, z)
    ensures z.emitted == s.emitted
    decreases |fs|
  {
    if fs != [] {
      StepInv(s, fs[0]);
      EmittedStays(Apply(s, fs[0]).state, fs[1..], z);
    }
  }

  /**
   A final `NotStarted` means the upstream request was never polled, and never will be; a final
   `ResponseStarted` that it was.
   */
  lemma DeliveryIsHonest(d: Diagnostics, es: seq<Event>, s: State, fs: seq<Event>, z: State)
    requires Reaches(Registered(d), es, s) && s.progress.finished && Reaches(s, fs, z)
    ensures s.progress.diagnostics.delivery == NotStarted ==> !z.sendPolled
    ensures s.progress.diagnostics.delivery == ResponseStarted ==> s.sendPolled
    ensures z.progress == s.progress
  {
    EveryRun(Registered(d), es, s);
    EveryRun(s, fs, z);
  }

  /** How a request that was cancelled (if `cancelled`) or out of time can stand: still running, or failed for that. */
  ghost predicate Doomed(s: State, cancelled: bool) {
    && (s.worker.Running? || s.worker == Ended)
    && (s.worker.Running? ==> if cancelled then s.cancelled else s.cancelled || s.late)
    && (s.worker == Ended ==> s.progress.error.Some?)
    && (s.worker == Ended ==> s.progress.error.value.code in (if cancelled then {Cancelled} else {Cancelled, Timeout}))
  }

  lemma DoomedStep(s: State, e: Event, t: State, cancelled: bool)
    requires Inv(s) && Doomed(s, cancelled) && Apply(s, e) == Next(t)
    ensures Doomed(t, cancelled)
  {
  }

  lemma {:induction false} DoomedRun(s: State, es: seq<Event>, z: State, cancelled: bool)
    requires Inv(s) && Doomed(s, cancelled) && Reaches(s, es, z)
    ensures Inv(z) && Doomed(z, cancelled)
    decreases |es|
  {
    if es != [] {
      var t := Apply(s, es[0]).state;
      StepInv(s, es[0]);
      DoomedStep(s, es[0], t, cancelled);
      DoomedRun(t, es[1..], z, cancelled);
    }
  }

  /**
   A running request that is cancelled never completes, whatever its execution still does: it ends as
   cancelled.  One that is out of time ends as cancelled or timed out.
   */
  lemma CancelledNeverCompletes(d: Diagnostics, es: seq<Event>, s: State, fs: seq<Event>, z: State)
    requires Reaches(Registered(d), es, s) && s.worker.Running? && (s.cancelled || s.late)
    requires Reaches(s, fs, z) && z.progress.finished
    ensures z.progress.error.Some? && z.progress.error.value.code in {Cancelled, Timeout}
    ensures s.cancelled ==> z.progress.error.value.code == Cancelled
  {
    EveryRun(Registered(d), es, s);
    DoomedRun(s, fs, z, s.cancelled);
  }

  /** How a request can stand once its execution returned `error`: running, or finished for such a reason. */
  ghost predicate Settling(s: State, error: Option<Error>) {
    && (s.worker == Running(Returned(error)) || s.worker == Ended)
    && (s.worker == Ended ==>
          if s.progress.error.None? then error.None?
          else
            || s.progress.error.value.code in {Cancelled, Timeout}
            || (error.Some? && s.progress.error.value.code == error.value.code))
  }

  lemma SettlingStep(s: State, error: Option<Error>, e: Event, t: State)
    requires Inv(s) && Settling(s, error) && Apply(s, e) == Next(t)
    ensures Settling(t, error)
  {
  }

  /** A failed execution never completes: the request ends with its error, unless it was cancelled or late before. */
  lemma {:induction false} ErrorIsReported(s: State, error: Option<Error>, es: seq<Event>, z: State)
    requires Inv(s) && Settling(s, error) && Reaches(s, es, z)
    ensures Settling(z, error)
    decreases |es|
  {
    if es != [] {
      var t := Apply(s, es[0]).state;
      StepInv(s, es[0]);
      SettlingStep(s, error, es[0], t);
      ErrorIsReported(t, error, es[1..], z);
    }
  }

  /** In particular a response that grows past the limit never completes. */
  lemma TooLargeNeverCompletes(d: Diagnostics, es: seq<Event>, s: State, size: nat, limit: nat, t: State,
                               fs: seq<Event>, z: State)
    requires Reaches(Registered(d), es, s) && Apply(s, Chunk(size, limit)) == Next(t) && s.received + size > limit
    requires Reaches(t, fs, z) && z.progress.finished
    ensures z.progress.error.Some? && z.progress.error.value.code in {Cancelled, Timeout, BodyTooLarge}
  {
    EveryRun(Registered(d), es, s);
    StepInv(s, Chunk(size, limit));
    EveryRun(t, fs, z);
    ErrorIsReported(t, Some(Error(BodyTooLarge, None)), fs, z);
  }

  // ----- the record updated in place -----

  /** Bytes counted when the response ends or passes the limit, whichever comes first. */
  function CountUpTo(chunks: seq<nat>, limit: nat, count: nat): nat {
    if chunks == [] || count > limit then count else CountUpTo(chunks[1..], limit, count + chunks[0])
  }

  function Total(chunks: seq<nat>): nat {
    if chunks == [] then 0 else chunks[0] + Total(chunks[1..])
  }

  /** The count passes the limit exactly if the whole response does, and else is its length. */
  lemma {:induction false} CountIsTotal(chunks: seq<nat>, limit: nat, count: nat)
    ensures var n := CountUpTo(chunks, limit, count);
            (n > limit <==> count + Total(chunks) > limit) && (n <= limit ==> n == count + Total(chunks))
    decreases |chunks|
  {
    if chunks != [] && count <= limit { CountIsTotal(chunks[1..], limit, count + chunks[0]); }
  }

  class RequestRecord {
    var diagnostics: Diagnostics
    var finished: bool
    var error: Option<Error>

    function View(): Progress
      reads this
    {
      Progress(diagnostics, finished, error)
    }

    constructor (diagnostics: Diagnostics)
      ensures View() == Progress(diagnostics, false, None)
    {
      this.diagnostics, finished, error := diagnostics, false, None;
    }

    method Change(c: Change)
      modifies this`diagnostics
      ensures View() == Update(old(View()), c)
    {
      if !finished {
        diagnostics := Edit(diagnostics, c);
      }
    }

    method Conclude(failure: Option<Error>, elapsed: nat, waited: nat) returns (status: Status)
      modifies this
      ensures View() == Finish(old(View()), failure, elapsed, waited) && status == StatusOf(View())
      ensures old(finished) ==> View() == old(View())
    {
      if !finished {
        diagnostics := diagnostics.(totalMs := elapsed);
        if diagnostics.phase == Queued {
          diagnostics := diagnostics.(queueMs := waited);
        }
        if failure.None? {
          diagnostics := diagnostics.(phase := Complete);
        }
        error := if failure.Some? then Some(failure.value.(diagnostics := Some(diagnostics))) else None;
        finished := true;
      }
      status := StatusOf(View());
    }

    /** The body loop: the record follows the count, and the loop fails exactly when the body is too large. */
    method StreamBody(chunks: seq<nat>, limit: nat) returns (failure: Option<Error>)
      modifies this`diagnostics
      ensures failure == if Total(chunks) > limit then Some(Error(BodyTooLarge, None)) else None
      ensures View() == if chunks == [] then old(View()) else Update(old(View()), Download(CountUpTo(chunks, limit, 0)))
      ensures chunks != [] && !finished && failure.None? ==> diagnostics.responseBytes == Total(chunks)
    {
      CountIsTotal(chunks, limit, 0);
      var count: nat := 0;
      for i := 0 to |chunks|
        invariant CountUpTo(chunks, limit, 0) == CountUpTo(chunks[i..], limit, count) && count <= limit
        invariant View() == if i == 0 then old(View()) else Update(old(View()), Download(count))
      {
        assert chunks[i..][1..] == chunks[i + 1..];
        count := count + chunks[i];
        Change(Download(count));
        if count > limit {
          return Some(Error(BodyTooLarge, None));
        }
      }
      return None;
    }

    /** The worker's last words: measure, finish, and the terminal frame from the status that this fixed. */
    method Terminate(failure: Option<Error>, elapsed: nat, waited: nat) returns (frame: Frame)
      modifies this
      ensures View() == Finish(Update(old(View()), Measure(elapsed)), failure, elapsed, waited)
      ensures frame == FrameOf(StatusOf(View())) && finished
      ensures old(finished) ==> View() == old(View())
    {
      Change(Measure(elapsed));
      var status := Conclude(failure, elapsed, waited);
      frame := FrameOf(status);
    }
  }
}
