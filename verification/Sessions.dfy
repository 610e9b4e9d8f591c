/**
 Sessions of the TypeScript client (packages/typescript/src/sessions.ts): which remote contexts a
 session still owes a deletion, the transactional identity rebind, revisions and close.

 JavaScript runs each continuation to its next await, so one event here is one continuation, resumed
 with any reply.  The service never returns the id of a context it returned before.
 */
module Sessions {
  import opened Wrappers

  type Id = nat
  type Connection = nat

  datatype Info = Info(id: Id, revision: nat)

  // ----- the closure variables -----

  datatype Core = Core(info: Info, connection: Connection, cleanup: set<Id>, lost: bool)

  /** A revision for another context is ignored; a smaller one for this context is a conflict. */
  function ApplyRevision(c: Core, value: nat, id: Id): Option<Core> {
    if c.info.id != id then Some(c)
    else if value < c.info.revision then None
    else Some(c.(info := c.info.(revision := value)))
  }

  function MarkLost(c: Core, missing: bool, id: Id): Core {
    if missing && c.info.id == id then c.(lost := true) else c
  }

  /** The end of a deletion: confirmed (or already gone), or still to be done. */
  function Removed(c: Core, id: Id, gone: bool): Core {
    c.(cleanup := if gone then c.cleanup - {id} else c.cleanup + {id})
  }

  function Cutover(c: Core, next: Id, revision: nat, connection: Connection): Core {
    c.(info := Info(next, revision), connection := connection, cleanup := c.cleanup + {c.info.id})
  }

  datatype Reply = Revision(value: nat) | Plain | Missing | Error

  /** The reply to a cookie command; a write must advance the revision by exactly one. */
  function CommandCore(c: Core, id: Id, expected: Option<nat>, reply: Reply): Core {
    match reply
    case Revision(n) =>
      var taken := ApplyRevision(c, n, c.info.id);
      if (expected.Some? && n != expected.value + 1) || taken.None? then c else taken.value
    case _ => MarkLost(c, reply.Missing?, id)
  }

  /** The response to an exchange, if its revision is accepted. */
  function SendCore(c: Core, managed: bool, current: Info, reply: Reply): Option<Core> {
    match reply
    case Revision(n) => if managed && n < current.revision then None else ApplyRevision(c, n, current.id)
    case Plain => if managed then None else Some(c)
    case _ => None
  }

  /** The export a rebind starts with, if its revision is accepted. */
  function ExportCore(c: Core, reply: Reply): Option<Core> {
    if reply.Revision? then ApplyRevision(c, reply.value, c.info.id) else None
  }

  /** Whether the import into the staged context lets the rebind commit. */
  predicate Commits(next: Info, reply: Reply, aborted: bool) {
    reply.Revision? && reply.value == next.revision + 1 && !aborted
  }

  function ImportCore(c: Core, next: Info, wanted: Connection, reply: Reply, aborted: bool): Core {
    if Commits(next, reply, aborted) then Cutover(c, next.id, reply.value, wanted)
    else c.(cleanup := c.cleanup + {next.id})
  }

  // ----- all interleavings -----

  datatype Kind = Cookies(writes: bool) | Stream | Rebind(wanted: Connection)

  /** An operation at an await; a rebind remembers the context and connection it started from. */
  datatype Op =
    | Waiting(kind: Kind)
    | Commanding(id: Id, expected: Option<nat>)
    | Sending(current: Info)
    | Streaming(id: Id)
    | Exporting(wanted: Connection, from: Id, base: Connection)
    | Opening(wanted: Connection, from: Id, base: Connection)
    | Importing(wanted: Connection, from: Id, base: Connection, next: Info)
    | Unstaging(wanted: Connection, from: Id, base: Connection, next: Info, missing: bool)
    | Retiring(wanted: Connection, from: Id, base: Connection, next: Info)

  datatype Closing = Unclosed | Draining | Deleting(waiting: set<Id>, failed: bool) | Done

  /** How a rebind ended: what it started from, what it asked for, and what the session then had. */
  datatype Outcome = Outcome(committed: bool, from: Id, base: Connection, wanted: Connection, next: Id, info: Id,
      connection: Connection)

  datatype State = State(
    managed: bool,
    core: Core,
    ops: map<nat, Op>,
    slot: Option<nat>,
    closed: bool,
    closing: Closing,
    swept: bool,
    returned: set<Id>,
    deleted: set<Id>,
    past: set<Id>,
    outcomes: seq<Outcome>)

  function Opened(managed: bool, info: Info, connection: Connection): State {
    State(managed, Core(info, connection, {info.id}, false), map[], None, false, Unclosed, false, {info.id}, {}, {}, [])
  }

  datatype Event =
    | Begin(a: nat, kind: Kind)
    | Abort(a: nat)
    | Grant(a: nat)
    | CommandReply(a: nat, reply: Reply)
    | SendReply(a: nat, reply: Reply)
    | Complete(a: nat, missing: bool)
    | ExportReply(a: nat, reply: Reply)
    | OpenReply(a: nat, info: Option<Info>, missing: bool)
    | ImportReply(a: nat, reply: Reply, aborted: bool)
    | UnstageReply(a: nat, gone: bool)
    | RetireReply(a: nat, gone: bool)
    | StopAccepting
    | Close
    | Drained(expired: bool)
    | DeleteReply(id: Id, gone: bool)

  datatype Effect = Next(state: State) | Disabled

  /** The end of an operation gives its slot back. */
  function End(s: State, a: nat): State {
    s.(ops := s.ops - {a}, slot := if s.slot == Some(a) then None else s.slot)
  }

  function Go(s: State, a: nat, op: Op): State {
    s.(ops := s.ops[a := op])
  }

  function At(s: State, a: nat): Option<Op> {
    if a in s.ops then Some(s.ops[a]) else None
  }

  function Granted(s: State, a: nat, kind: Kind): State {
    if s.core.lost then End(s, a)
    else match kind
      case Cookies(writes) => Go(s, a, Commanding(s.core.info.id, if writes then Some(s.core.info.revision) else None))
      case Stream => Go(s, a, Sending(s.core.info))
      case Rebind(wanted) => Go(s, a, Exporting(wanted, s.core.info.id, s.core.connection))
  }

  function Sent(s: State, a: nat, current: Info, reply: Reply): State {
    var c := SendCore(s.core, s.managed, current, reply);
    if c.Some? then Go(End(s.(core := c.value), a), a, Streaming(current.id))
    else End(s.(core := MarkLost(s.core, reply.Missing?, current.id)), a)
  }

  /** A rebind that throws before the cutover. */
  function Threw(s: State, a: nat, wanted: Connection, from: Id, base: Connection, next: Id, missing: bool): State {
    var c := MarkLost(s.core, missing, from);
    End(s.(core := c, outcomes := s.outcomes + [Outcome(false, from, base, wanted, next, c.info.id, c.connection)]), a)
  }

  function Exported(s: State, a: nat, op: Op, reply: Reply): State
    requires op.Exporting?
  {
    var c := ExportCore(s.core, reply);
    if c.None? then Threw(s, a, op.wanted, op.from, op.base, op.from, reply.Missing?)
    else Go(s.(core := c.value), a, Opening(op.wanted, op.from, op.base))
  }

  function OpenedNext(s: State, a: nat, op: Op, info: Option<Info>, missing: bool): State
    requires op.Opening?
  {
    match info
    case None => Threw(s, a, op.wanted, op.from, op.base, op.from, missing)
    case Some(next) =>
      Go(s.(returned := s.returned + {next.id}, core := s.core.(cleanup := s.core.cleanup + {next.id})), a,
         Importing(op.wanted, op.from, op.base, next))
  }

  function Imported(s: State, a: nat, op: Op, reply: Reply, aborted: bool): State
    requires op.Importing?
  {
    var t := s.(core := ImportCore(s.core, op.next, op.wanted, reply, aborted));
    if Commits(op.next, reply, aborted) then
      Go(t.(past := s.past + {s.core.info.id}), a, Retiring(op.wanted, s.core.info.id, op.base, op.next))
    else
      Go(t, a, Unstaging(op.wanted, op.from, op.base, op.next, reply.Missing?))
  }

  function Deleted(s: State, id: Id, gone: bool): State {
    s.(core := Removed(s.core, id, gone), deleted := if gone then s.deleted + {id} else s.deleted)
  }

  function Retired(s: State, a: nat, op: Op, gone: bool): State
    requires op.Retiring?
  {
    var t := Deleted(s, op.from, gone);
    End(t.(outcomes := s.outcomes + [Outcome(true, op.from, op.base, op.wanted, op.next.id, t.core.info.id,
        t.core.connection)]), a)
  }

  function Settled(s: State, waiting: set<Id>, failed: bool): State {
    s.(closing := if waiting != {} then Deleting(waiting, failed) else if failed then Unclosed else Done)
  }

  function Apply(s: State, e: Event): Effect {
    match e
    case Begin(a, kind) =>
      if a in s.ops || s.closed || s.core.lost || (!s.managed && kind != Stream) then Disabled
      else Next(Go(s, a, Waiting(kind)))
    case Abort(a) => if At(s, a).Some? && s.ops[a].Waiting? then Next(End(s, a)) else Disabled
    case Grant(a) =>
      if a !in s.ops || !s.ops[a].Waiting? || (s.managed && s.slot.Some?) then Disabled
      else Next(Granted(if s.managed then s.(slot := Some(a)) else s, a, s.ops[a].kind))
    case CommandReply(a, reply) =>
      if a !in s.ops || !s.ops[a].Commanding? then Disabled
      else Next(End(s.(core := CommandCore(s.core, s.ops[a].id, s.ops[a].expected, reply)), a))
    case SendReply(a, reply) =>
      if a !in s.ops || !s.ops[a].Sending? then Disabled
      else Next(Sent(s, a, s.ops[a].current, reply))
    case Complete(a, missing) =>
      if a !in s.ops || !s.ops[a].Streaming? then Disabled
      else Next(End(s.(core := MarkLost(s.core, missing, s.ops[a].id)), a))
    case ExportReply(a, reply) =>
      if a !in s.ops || !s.ops[a].Exporting? then Disabled
      else Next(Exported(s, a, s.ops[a], reply))
    case OpenReply(a, info, missing) =>
      if a !in s.ops || !s.ops[a].Opening? || (info.Some? && info.value.id in s.returned) then Disabled
      else Next(OpenedNext(s, a, s.ops[a], info, missing))
    case ImportReply(a, reply, aborted) =>
      if a !in s.ops || !s.ops[a].Importing? then Disabled else Next(Imported(s, a, s.ops[a], reply, aborted))
    case UnstageReply(a, gone) =>
      if a !in s.ops || !s.ops[a].Unstaging? then Disabled
      else
        var op := s.ops[a];
        Next(Threw(Deleted(s, op.next.id, gone), a, op.wanted, op.from, op.base, op.next.id, op.missing))
    case RetireReply(a, gone) =>
      if a !in s.ops || !s.ops[a].Retiring? then Disabled
      else Next(Retired(s, a, s.ops[a], gone))
    case StopAccepting => Next(s.(closed := true))
    case Close => if s.closing != Unclosed then Disabled else Next(s.(closed := true, closing := Draining))
    case Drained(expired) =>
      if s.closing != Draining || s.ops != map[] then Disabled
      else if expired then Next(s.(closing := Unclosed))
      else Next(Settled(s.(swept := true), s.core.cleanup, false))
    case DeleteReply(id, gone) =>
      if !s.closing.Deleting? || id !in s.closing.waiting then Disabled
      else Next(Settled(Deleted(s, id, gone), s.closing.waiting - {id}, s.closing.failed || !gone))
  }

  ghost predicate Reaches(s: State, es: seq<Event>, z: State)
    decreases |es|
  {
    if es == [] then s == z else Apply(s, es[0]).Next? && Reaches(Apply(s, es[0]).state, es[1..], z)
  }

  // ----- the invariant -----

  predicate Rebinding(op: Op) {
    op.Exporting? || op.Opening? || op.Importing? || op.Unstaging? || op.Retiring?
  }

  predicate UsesSlot(op: Op) {
    Rebinding(op) || op.Commanding? || op.Sending?
  }

  /** A context that could still become the current one. */
  ghost predicate Staged(s: State, id: Id) {
    id in s.returned && id !in s.past && id != s.core.info.id && id !in s.deleted
  }

  ghost predicate OpOk(s: State, a: nat) {
    a in s.ops ==>
      var op := s.ops[a];
      && (s.managed && UsesSlot(op) ==> s.slot == Some(a))
      && (Rebinding(op) || op.Commanding? ==> s.managed)
      && (Rebinding(op) && !op.Retiring? ==> op.from == s.core.info.id && op.base == s.core.connection)
      && (op.Importing? || op.Unstaging? ==> Staged(s, op.next.id))
      && (op.Retiring? ==> op.next.id == s.core.info.id && op.wanted == s.core.connection)
      && (op.Retiring? ==> op.from != op.next.id && op.from in s.past && op.from !in s.deleted)
      && (op.Waiting? ==> s.slot != Some(a) && (s.managed || op.kind == Stream))
      && (op.Streaming? ==> s.slot != Some(a) && (op.id == s.core.info.id || op.id in s.past))
      && (op.Commanding? ==> op.id == s.core.info.id)
      && (op.Sending? ==> op.current.id == s.core.info.id)
  }

  /** What is owed a deletion is exactly what the service returned and has not confirmed deleted. */
  ghost predicate Owned(s: State) {
    s.core.cleanup == s.returned - s.deleted && s.deleted <= s.returned
  }

  ghost predicate CurrentOk(s: State) {
    && s.core.info.id in s.returned && s.core.info.id !in s.past && s.past <= s.returned
    && (!s.swept ==> s.core.info.id !in s.deleted)
  }

  ghost predicate ClosingOk(s: State) {
    && (s.closing != Unclosed ==> s.closed)
    && (s.swept ==> s.closed && s.ops == map[])
    && (s.closing.Deleting? || s.closing.Done? ==> s.swept)
    && (s.closing.Deleting? ==> s.closing.waiting <= s.returned - s.deleted)
    && (s.closing.Deleting? && !s.closing.failed ==> s.returned - s.deleted <= s.closing.waiting)
    && (s.closing.Done? ==> s.returned <= s.deleted)
  }

  predicate OutcomeOk(o: Outcome) {
    if o.committed then o.info == o.next && o.connection == o.wanted && o.next != o.from
    else o.info == o.from && o.connection == o.base
  }

  ghost predicate Inv(s: State) {
    && Owned(s) && CurrentOk(s) && ClosingOk(s)
    && (forall a :: OpOk(s, a))
    && SlotOk(s)
    && (forall i :: 0 <= i < |s.outcomes| ==> OutcomeOk(s.outcomes[i]))
  }

  predicate ByOp(e: Event) {
    !(e.StopAccepting? || e.Close? || e.Drained? || e.DeleteReply?)
  }

  /** The steps of a rebind that holds the slot. */
  predicate RebindStep(e: Event) {
    e.ExportReply? || e.OpenReply? || e.ImportReply? || e.UnstageReply? || e.RetireReply?
  }

  lemma RebindOwned(s: State, e: Event, t: State)
    requires Owned(s) && CurrentOk(s) && ClosingOk(s) && Apply(s, e) == Next(t) && RebindStep(e) && OpOk(s, e.a)
    ensures Owned(t)
  {
  }

  lemma OtherOwned(s: State, e: Event, t: State)
    requires Owned(s) && ClosingOk(s) && Apply(s, e) == Next(t) && !RebindStep(e)
    ensures Owned(t)
  {
  }

  lemma RebindCurrent(s: State, e: Event, t: State)
    requires CurrentOk(s) && Apply(s, e) == Next(t) && RebindStep(e) && OpOk(s, e.a)
    ensures CurrentOk(t)
  {
  }

  lemma OtherCurrent(s: State, e: Event, t: State)
    requires ClosingOk(s) && CurrentOk(s) && Apply(s, e) == Next(t) && !RebindStep(e)
    ensures CurrentOk(t)
  {
  }

  /** Once every deletion of a close is confirmed, nothing is owed. */
  lemma SettledOk(s: State, waiting: set<Id>, failed: bool)
    requires s.closed && s.swept && s.ops == map[] && waiting <= s.returned - s.deleted
    requires !failed ==> s.returned - s.deleted <= waiting
    ensures ClosingOk(Settled(s, waiting, failed))
  {
    if waiting == {} && !failed {
      forall id | id in s.returned ensures id in s.deleted { assert id !in s.returned - s.deleted; }
    }
  }

  lemma StepClosing(s: State, e: Event, t: State)
    requires Owned(s) && ClosingOk(s) && Apply(s, e) == Next(t)
    ensures ClosingOk(t)
  {
    match e
    case Drained(expired) => if !expired { SettledOk(s.(swept := true), s.core.cleanup, false); }
    case DeleteReply(id, gone) => SettledOk(Deleted(s, id, gone), s.closing.waiting - {id}, s.closing.failed || !gone);
    case _ =>
  }

  ghost predicate Appends(s: State, t: State) {
    || t.outcomes == s.outcomes
    || (|t.outcomes| == |s.outcomes| + 1 && t.outcomes[..|s.outcomes|] == s.outcomes
        && OutcomeOk(t.outcomes[|s.outcomes|]))
  }

  lemma RebindOutcome(s: State, e: Event, t: State)
    requires Apply(s, e) == Next(t) && RebindStep(e) && OpOk(s, e.a)
    ensures Appends(s, t)
  {
  }

  lemma OtherOutcome(s: State, e: Event, t: State)
    requires Apply(s, e) == Next(t) && !RebindStep(e)
    ensures t.outcomes == s.outcomes
  {
  }

  ghost predicate SlotOk(s: State) {
    s.slot.Some? ==> s.slot.value in s.ops
  }

  lemma ImportOp(s: State, e: Event, t: State, b: nat)
    requires CurrentOk(s) && ClosingOk(s) && OpOk(s, b) && Apply(s, e) == Next(t) && e.ImportReply? && OpOk(s, e.a)
    ensures OpOk(t, b)
  {
  }

  lemma RebindOp(s: State, e: Event, t: State, b: nat)
    requires CurrentOk(s) && Owned(s) && OpOk(s, b) && Apply(s, e) == Next(t)
    requires RebindStep(e) && !e.ImportReply? && OpOk(s, e.a)
    ensures OpOk(t, b)
  {
  }

  lemma GrantOp(s: State, a: nat, t: State, b: nat)
    requires OpOk(s, b) && OpOk(s, a) && Apply(s, Grant(a)) == Next(t)
    ensures OpOk(t, b)
  {
  }

  lemma OtherOp(s: State, e: Event, t: State, b: nat)
    requires ClosingOk(s) && OpOk(s, b) && Apply(s, e) == Next(t) && !RebindStep(e) && !e.Grant?
               && (ByOp(e) ==> OpOk(s, e.a)) && SlotOk(s)
    ensures OpOk(t, b)
  {
  }

  lemma StepOps(s: State, e: Event, t: State)
    requires Inv(s) && Apply(s, e) == Next(t)
    ensures forall b :: OpOk(t, b)
  {
    if ByOp(e) { assert OpOk(s, e.a); }
    forall b ensures OpOk(t, b) {
      assert OpOk(s, b);
      if e.ImportReply? {
        ImportOp(s, e, t, b);
      } else if RebindStep(e) {
        RebindOp(s, e, t, b);
      } else if e.Grant? {
        GrantOp(s, e.a, t, b);
      } else {
        OtherOp(s, e, t, b);
      }
    }
  }

  lemma StepOutcomes(s: State, e: Event, t: State)
    requires Inv(s) && Apply(s, e) == Next(t)
    ensures forall i :: 0 <= i < |t.outcomes| ==> OutcomeOk(t.outcomes[i])
  {
    if RebindStep(e) { assert OpOk(s, e.a); RebindOutcome(s, e, t); } else { OtherOutcome(s, e, t); }
    forall i | 0 <= i < |t.outcomes| ensures OutcomeOk(t.outcomes[i]) {
      if i < |s.outcomes| { assert t.outcomes[i] == t.outcomes[..|s.outcomes|][i] == s.outcomes[i]; }
    }
  }

  lemma RebindSlot(s: State, e: Event, t: State)
    requires Apply(s, e) == Next(t) && RebindStep(e) && OpOk(s, e.a) && SlotOk(s)
    ensures SlotOk(t)
  {
  }

  lemma OtherSlot(s: State, e: Event, t: State)
    requires Apply(s, e) == Next(t) && !RebindStep(e) && (ByOp(e) ==> OpOk(s, e.a)) && SlotOk(s)
    ensures SlotOk(t)
  {
  }

  lemma StepInv(s: State, e: Event)
    requires Inv(s) && Apply(s, e).Next?
    ensures Inv(Apply(s, e).state)
  {
    var t := Apply(s, e).state;
    if ByOp(e) { assert OpOk(s, e.a); }
    if RebindStep(e) {
      RebindOwned(s, e, t);
      RebindCurrent(s, e, t);
      RebindSlot(s, e, t);
    } else {
      OtherOwned(s, e, t);
      OtherCurrent(s, e, t);
      OtherSlot(s, e, t);
    }
    StepClosing(s, e, t);
    StepOps(s, e, t);
    StepOutcomes(s, e, t);
  }

  lemma {:induction false} EveryRun(s: State, es: seq<Event>, z: State)
    requires Inv(s) && Reaches(s, es, z)
    ensures Inv(z)
    decreases |es|
  {
    if es != [] {
      StepInv(s, es[0]);
      EveryRun(Apply(s, es[0]).state, es[1..], z);
    }
  }

  lemma OpenedInv(managed: bool, info: Info, connection: Connection)
    ensures Inv(Opened(managed, info, connection))
  {
    var s := Opened(managed, info, connection);
    forall a ensures OpOk(s, a) { }
  }

  // ----- what a session promises -----

  /** At every await, each context the service returned is confirmed deleted or still in `cleanup`. */
  lemma EveryContextIsOwned(managed: bool, info: Info, connection: Connection, es: seq<Event>, z: State, id: Id)
    requires Reaches(Opened(managed, info, connection), es, z) && id in z.returned
    ensures id in z.core.cleanup <==> id !in z.deleted
    ensures z.closing.Done? ==> id in z.deleted
    ensures id == z.core.info.id && !z.swept ==> id !in z.deleted
  {
    OpenedInv(managed, info, connection);
    EveryRun(Opened(managed, info, connection), es, z);
  }

  /**
   A rebind either threw and left context and connection as they were, or returned with both
   switched.  `info` and `connection` of an outcome are what the session had when it ended.
   */
  lemma RebindIsAtomic(managed: bool, info: Info, connection: Connection, es: seq<Event>, z: State, i: nat)
    requires Reaches(Opened(managed, info, connection), es, z) && i < |z.outcomes|
    ensures var o := z.outcomes[i];
            if o.committed then o.info == o.next && o.connection == o.wanted && o.next != o.from
            else o.info == o.from && o.connection == o.base
  {
    OpenedInv(managed, info, connection);
    EveryRun(Opened(managed, info, connection), es, z);
    assert OutcomeOk(z.outcomes[i]);
  }

  lemma StepRevision(s: State, e: Event, t: State)
    requires Inv(s) && Apply(s, e) == Next(t)
    ensures s.past <= t.past
    ensures if t.core.info.id == s.core.info.id then s.core.info.revision <= t.core.info.revision
              else s.core.info.id in t.past
  {
    if ByOp(e) { assert OpOk(s, e.a); }
  }

  /**
   Over any stretch of any run: a replaced context never comes back, and for one context the revision
   never decreases.
   */
  lemma {:induction false} RevisionNeverDecreases(s: State, es: seq<Event>, z: State)
    requires Inv(s) && Reaches(s, es, z)
    ensures s.past <= z.past
    ensures if z.core.info.id == s.core.info.id then s.core.info.revision <= z.core.info.revision
              else s.core.info.id in z.past
    decreases |es|
  {
    if es != [] {
      var t := Apply(s, es[0]).state;
      StepInv(s, es[0]);
      StepRevision(s, es[0], t);
      RevisionNeverDecreases(t, es[1..], z);
      EveryRun(t, es[1..], z);
    }
  }

  /**
   In every run: commands and requests awaiting their first reply are for the current context, and
   the end of a stream on a replaced context changes no closure variable.
   */
  lemma LateRepliesChangeNothing(managed: bool, info: Info, connection: Connection, es: seq<Event>, z: State,
      a: nat, missing: bool)
    requires Reaches(Opened(managed, info, connection), es, z) && a in z.ops
    ensures z.ops[a].Commanding? ==> z.ops[a].id == z.core.info.id
    ensures z.ops[a].Sending? ==> z.ops[a].current.id == z.core.info.id
    ensures z.ops[a].Streaming? && z.ops[a].id != z.core.info.id ==>
              z.ops[a].id in z.past && Apply(z, Complete(a, missing)).state.core == z.core
  {
    OpenedInv(managed, info, connection);
    EveryRun(Opened(managed, info, connection), es, z);
    assert OpOk(z, a);
  }

  /** A close succeeds exactly when its last deletion is answered and none of them failed; else it can be repeated. */
  lemma CloseEnds(s: State, id: Id, gone: bool)
    requires s.closing.Deleting? && s.closing.waiting == {id}
    ensures var t := Apply(s, DeleteReply(id, gone)).state;
            t.closing == if gone && !s.closing.failed then Done else Unclosed
  {
    assert s.closing.waiting - {id} == {};
  }

  /** No context is left behind by a close that succeeded, and none is opened afterwards. */
  lemma {:induction false} ClosedForGood(s: State, es: seq<Event>, z: State)
    requires Inv(s) && s.closing.Done? && Reaches(s, es, z)
    ensures z.closing.Done? && z.returned == s.returned <= z.deleted && z.ops == map[]
    decreases |es|
  {
    if es != [] {
      StepInv(s, es[0]);
      ClosedForGood(Apply(s, es[0]).state, es[1..], z);
    }
  }

  // ----- which revision the session has -----

  /**
   The revision a reply brings the session to, told from the reply alone: any reply for the current
   context that does not go back, a write only by one step, and the import of a rebind that commits.
   */
  function Accepted(s: State, e: Event): Option<nat> {
    match e
    case CommandReply(a, Revision(n)) =>
      if a in s.ops && s.ops[a].Commanding? && n >= s.core.info.revision
         && (s.ops[a].expected.Some? ==> n == s.ops[a].expected.value + 1) then Some(n) else None
    case SendReply(a, Revision(n)) =>
      if a in s.ops && s.ops[a].Sending? && n >= s.core.info.revision
         && (s.managed ==> n >= s.ops[a].current.revision) then Some(n) else None
    case ExportReply(a, Revision(n)) =>
      if a in s.ops && s.ops[a].Exporting? && n >= s.core.info.revision then Some(n) else None
    case ImportReply(a, Revision(n), false) =>
      if a in s.ops && s.ops[a].Importing? && n == s.ops[a].next.revision + 1 then Some(n) else None
    case _ => None
  }

  ghost function LastAccepted(r: nat, s: State, es: seq<Event>): nat
    decreases |es|
  {
    if es == [] || !Apply(s, es[0]).Next? then r
    else
      var next := if Accepted(s, es[0]).Some? then Accepted(s, es[0]).value else r;
      LastAccepted(next, Apply(s, es[0]).state, es[1..])
  }

  lemma StepTakesRevision(s: State, e: Event, t: State)
    requires Apply(s, e) == Next(t) && (ByOp(e) ==> OpOk(s, e.a))
    ensures t.core.info.revision == if Accepted(s, e).Some? then Accepted(s, e).value else s.core.info.revision
  {
  }

  /** Over every run the session's revision is the last one accepted. */
  lemma {:induction false} RevisionIsLastAccepted(s: State, es: seq<Event>, z: State)
    requires Inv(s) && Reaches(s, es, z)
    ensures z.core.info.revision == LastAccepted(s.core.info.revision, s, es)
    decreases |es|
  {
    if es != [] {
      var t := Apply(s, es[0]).state;
      if ByOp(es[0]) { assert OpOk(s, es[0].a); }
      StepTakesRevision(s, es[0], t);
      StepInv(s, es[0]);
      RevisionIsLastAccepted(t, es[1..], z);
    }
  }

  /** A write under way expects the session's own revision, and a managed request was sent with it. */
  ghost predicate Carries(s: State, a: nat) {
    a in s.ops ==>
      && (s.ops[a].Commanding? && s.ops[a].expected.Some? ==> s.ops[a].expected.value == s.core.info.revision)
      && (s.managed && s.ops[a].Sending? ==> s.ops[a].current == s.core.info)
  }

  lemma RebindCarries(s: State, e: Event, t: State, b: nat)
    requires Apply(s, e) == Next(t) && RebindStep(e) && OpOk(s, b) && Carries(s, b) && OpOk(s, e.a)
    ensures Carries(t, b)
  {
  }

  lemma OtherCarries(s: State, e: Event, t: State, b: nat)
    requires Apply(s, e) == Next(t) && !RebindStep(e) && OpOk(s, b) && Carries(s, b) && (ByOp(e) ==> OpOk(s, e.a))
    ensures Carries(t, b)
  {
  }

  lemma {:induction false} EveryRunCarries(s: State, es: seq<Event>, z: State)
    requires Inv(s) && (forall a :: Carries(s, a)) && Reaches(s, es, z)
    ensures forall a :: Carries(z, a)
    decreases |es|
  {
    if es != [] {
      var t := Apply(s, es[0]).state;
      if ByOp(es[0]) { assert OpOk(s, es[0].a); }
      forall b ensures Carries(t, b) {
        assert OpOk(s, b) && Carries(s, b);
        if RebindStep(es[0]) { RebindCarries(s, es[0], t, b); } else { OtherCarries(s, es[0], t, b); }
      }
      StepInv(s, es[0]);
      EveryRunCarries(t, es[1..], z);
    }
  }

  /**
   From its opening on, a session has the revision it accepted last, and every write it has under way
   expects exactly that one: a session never loses a compare-and-swap to itself.
   */
  lemma WritesExpectLastAccepted(managed: bool, info: Info, connection: Connection, es: seq<Event>, z: State, a: nat)
    requires Reaches(Opened(managed, info, connection), es, z)
    ensures z.core.info.revision == LastAccepted(info.revision, Opened(managed, info, connection), es)
    ensures a in z.ops && z.ops[a].Commanding? && z.ops[a].expected.Some? ==>
              z.ops[a].expected.value == LastAccepted(info.revision, Opened(managed, info, connection), es)
  {
    var s := Opened(managed, info, connection);
    OpenedInv(managed, info, connection);
    forall b ensures Carries(s, b) { }
    RevisionIsLastAccepted(s, es, z);
    EveryRunCarries(s, es, z);
    assert Carries(z, a);
  }

  /** A granted write does carry an expected revision, unless the session is lost and nothing is sent. */
  lemma GrantedWriteExpects(s: State, a: nat)
    requires a in s.ops && s.ops[a] == Waiting(Cookies(true)) && Apply(s, Grant(a)).Next?
    ensures var t := Apply(s, Grant(a)).state;
            && t.core == s.core
            && (if s.core.lost then a !in t.ops
                else t.ops[a] == Commanding(s.core.info.id, Some(s.core.info.revision)))
  {
  }

  /** A response is streamed exactly when it names an acceptable revision, or none on a session without cookies. */
  lemma StreamsOnlyAccepted(s: State, a: nat, reply: Reply)
    requires Inv(s) && a in s.ops && s.ops[a].Sending?
    ensures var t := Apply(s, SendReply(a, reply)).state;
            a in t.ops <==>
              || (reply.Plain? && !s.managed)
              || (reply.Revision? && reply.value >= s.core.info.revision
                  && (s.managed ==> reply.value >= s.ops[a].current.revision))
  {
    assert OpOk(s, a);
  }

  // ----- a session that is lost with a working context -----

  /** The context a reply other than to a deletion reports missing. */
  function Named(s: State, e: Event): Option<Id> {
    match e
    case CommandReply(a, Missing) => if a in s.ops && s.ops[a].Commanding? then Some(s.ops[a].id) else None
    case SendReply(a, Missing) => if a in s.ops && s.ops[a].Sending? then Some(s.ops[a].current.id) else None
    case Complete(a, true) => if a in s.ops && s.ops[a].Streaming? then Some(s.ops[a].id) else None
    case ExportReply(a, Missing) => if a in s.ops && s.ops[a].Exporting? then Some(s.ops[a].from) else None
    case ImportReply(a, Missing, _) => if a in s.ops && s.ops[a].Importing? then Some(s.ops[a].next.id) else None
    case _ => None
  }

  /** A rebind throws "not found" for the context it staged, or for the one it tried to open. */
  predicate Strays(s: State, e: Event) {
    match e
    case OpenReply(a, None, true) => a in s.ops && s.ops[a].Opening?
    case UnstageReply(a, _) => a in s.ops && s.ops[a].Unstaging? && s.ops[a].missing
    case _ => false
  }

  /** A rebind commits although the session was marked lost under way. */
  predicate CutsLost(s: State, e: Event) {
    && e.ImportReply? && e.a in s.ops && s.ops[e.a].Importing?
    && Commits(s.ops[e.a].next, e.reply, e.aborted) && s.core.lost
  }

  /** What happened so far: contexts reported missing, and whether the three kinds of event occurred. */
  datatype History = History(reported: set<Id>, reportedCurrent: bool, strayed: bool, cutLost: bool)

  const NOTHING: History := History({}, false, false, false)

  function Noted(h: History, s: State, e: Event): History {
    History(if Named(s, e).Some? then h.reported + {Named(s, e).value} else h.reported,
            h.reportedCurrent || Named(s, e) == Some(s.core.info.id),
            h.strayed || Strays(s, e),
            h.cutLost || CutsLost(s, e))
  }

  ghost function Recorded(h: History, s: State, es: seq<Event>): History
    decreases |es|
  {
    if es == [] || !Apply(s, es[0]).Next? then h else Recorded(Noted(h, s, es[0]), Apply(s, es[0]).state, es[1..])
  }

  /** After a cutover of a lost session nobody is left who could report the new context. */
  ghost predicate HistoryAt(s: State, h: History, a: nat) {
    a in s.ops ==>
      var op := s.ops[a];
      && (op.Importing? ==> op.next.id !in h.reported)
      && (h.cutLost ==> op.Waiting? || op.Retiring? || (op.Streaming? && op.id != s.core.info.id))
  }

  ghost predicate LossOk(s: State, h: History) {
    && (s.core.lost <==> h.reportedCurrent || h.strayed || h.cutLost)
    && (s.core.info.id in h.reported <==> h.reportedCurrent && !h.cutLost)
    && h.reported <= s.returned
  }

  ghost predicate HistoryOk(s: State, h: History) {
    LossOk(s, h) && forall a :: HistoryAt(s, h, a)
  }

  /** The two replies that concern a context not yet current. */
  predicate StagingReply(e: Event) {
    e.OpenReply? || e.ImportReply?
  }

  lemma StagingLoss(s: State, h: History, e: Event, t: State)
    requires LossOk(s, h) && CurrentOk(s) && Apply(s, e) == Next(t) && StagingReply(e)
    requires OpOk(s, e.a) && HistoryAt(s, h, e.a)
    ensures LossOk(t, Noted(h, s, e))
  {
  }

  lemma RebindLoss(s: State, h: History, e: Event, t: State)
    requires LossOk(s, h) && CurrentOk(s) && Apply(s, e) == Next(t) && RebindStep(e) && !StagingReply(e)
    requires OpOk(s, e.a) && HistoryAt(s, h, e.a)
    ensures LossOk(t, Noted(h, s, e))
  {
  }

  /** The replies that end a cookie command, a request or a stream. */
  predicate Answer(e: Event) {
    e.CommandReply? || e.SendReply? || e.Complete?
  }

  lemma AnswerLoss(s: State, h: History, e: Event, t: State)
    requires LossOk(s, h) && CurrentOk(s) && Apply(s, e) == Next(t) && Answer(e)
    requires OpOk(s, e.a) && HistoryAt(s, h, e.a)
    ensures LossOk(t, Noted(h, s, e))
  {
  }

  lemma OtherLoss(s: State, h: History, e: Event, t: State)
    requires LossOk(s, h) && Apply(s, e) == Next(t) && !RebindStep(e) && !Answer(e)
    ensures LossOk(t, Noted(h, s, e))
  {
  }

  lemma RebindHistory(s: State, h: History, e: Event, t: State, b: nat)
    requires CurrentOk(s) && LossOk(s, h) && Apply(s, e) == Next(t) && RebindStep(e)
    requires OpOk(s, b) && HistoryAt(s, h, b) && OpOk(s, e.a) && HistoryAt(s, h, e.a)
    ensures HistoryAt(t, Noted(h, s, e), b)
  {
  }

  lemma OtherHistory(s: State, h: History, e: Event, t: State, b: nat)
    requires CurrentOk(s) && LossOk(s, h) && Apply(s, e) == Next(t) && !RebindStep(e) && OpOk(s, b)
               && HistoryAt(s, h, b)
    requires ByOp(e) ==> OpOk(s, e.a) && HistoryAt(s, h, e.a)
    ensures HistoryAt(t, Noted(h, s, e), b)
  {
  }

  lemma StepHistory(s: State, h: History, e: Event, t: State)
    requires Inv(s) && HistoryOk(s, h) && Apply(s, e) == Next(t)
    ensures HistoryOk(t, Noted(h, s, e))
  {
    if ByOp(e) { assert OpOk(s, e.a) && HistoryAt(s, h, e.a); }
    if StagingReply(e) {
      StagingLoss(s, h, e, t);
    } else if RebindStep(e) {
      RebindLoss(s, h, e, t);
    } else if Answer(e) {
      AnswerLoss(s, h, e, t);
    } else {
      OtherLoss(s, h, e, t);
    }
    forall b ensures HistoryAt(t, Noted(h, s, e), b) {
      assert OpOk(s, b) && HistoryAt(s, h, b);
      if RebindStep(e) { RebindHistory(s, h, e, t, b); } else { OtherHistory(s, h, e, t, b); }
    }
  }

  lemma {:induction false} EveryHistory(s: State, h: History, es: seq<Event>, z: State)
    requires Inv(s) && HistoryOk(s, h) && Reaches(s, es, z)
    ensures HistoryOk(z, Recorded(h, s, es))
    decreases |es|
  {
    if es != [] {
      var t := Apply(s, es[0]).state;
      StepInv(s, es[0]);
      StepHistory(s, h, es[0], t);
      EveryHistory(t, Noted(h, s, es[0]), es[1..], z);
    }
  }

  /**
   Exactly when a session is lost although nobody ever reported its current context missing: a
   rebind committed while the session was already lost, or a staged or unopened context was missing
   and the current one was never reported.
   */
  lemma LostWithoutReport(managed: bool, info: Info, connection: Connection, es: seq<Event>, z: State)
    requires Reaches(Opened(managed, info, connection), es, z)
    ensures var h := Recorded(NOTHING, Opened(managed, info, connection), es);
            && (z.core.lost && z.core.info.id !in h.reported <==> h.cutLost || (h.strayed && !h.reportedCurrent))
            && (z.core.lost <==> h.reportedCurrent || h.strayed || h.cutLost)
  {
    var s := Opened(managed, info, connection);
    OpenedInv(managed, info, connection);
    forall a ensures HistoryAt(s, NOTHING, a) { }
    EveryHistory(s, NOTHING, es, z);
  }

  lemma LostRebindStep(s: State, e: Event, t: State, a: nat)
    requires s.core.lost && Apply(s, e) == Next(t) && RebindStep(e)
    ensures t.core.lost && (a in t.ops && UsesSlot(t.ops[a]) ==> a in s.ops && UsesSlot(s.ops[a]))
  {
  }

  lemma LostStep(s: State, e: Event, t: State, a: nat)
    requires s.core.lost && Apply(s, e) == Next(t) && !RebindStep(e)
    ensures t.core.lost && (a in t.ops && UsesSlot(t.ops[a]) ==> a in s.ops && UsesSlot(s.ops[a]))
  {
  }

  /** A lost session starts nothing: whatever is sent to the service later was under way when it was lost. */
  lemma {:induction false} LostStartsNothing(s: State, es: seq<Event>, z: State, a: nat)
    requires s.core.lost && Reaches(s, es, z) && a in z.ops && UsesSlot(z.ops[a])
    ensures z.core.lost && a in s.ops && UsesSlot(s.ops[a])
    decreases |es|
  {
    if es != [] {
      var t := Apply(s, es[0]).state;
      if RebindStep(es[0]) { LostRebindStep(s, es[0], t, a); } else { LostStep(s, es[0], t, a); }
      LostStartsNothing(t, es[1..], z, a);
    }
  }

  // ----- one run for each of the three ways -----

  const FIRST: State := Opened(true, Info(1, 0), 0)

  lemma {:induction false} Extend(s: State, es: seq<Event>, m: State, e: Event)
    requires Reaches(s, es, m) && Apply(m, e).Next?
    ensures Reaches(s, es + [e], Apply(m, e).state)
    decreases |es|
  {
    if es != [] {
      Extend(Apply(s, es[0]).state, es[1..], m, e);
      assert (es + [e])[1..] == es[1..] + [e];
    } else {
      assert ([] + [e])[1..] == [];
    }
  }

  lemma Then(es: seq<Event>, m: State, e: Event) returns (fs: seq<Event>, z: State)
    requires Reaches(FIRST, es, m) && Apply(m, e).Next?
    ensures Reaches(FIRST, fs, z) && Apply(m, e) == Next(z)
  {
    Extend(FIRST, es, m, e);
    fs, z := es + [e], Apply(m, e).state;
  }

  /** A rebind by operation 1, from the state `m` in which nobody has the slot, up to the opening of its context. */
  lemma Stages(es: seq<Event>, m: State) returns (fs: seq<Event>, z: State)
    requires Reaches(FIRST, es, m) && m.managed && !m.closed && m.slot == None && 1 !in m.ops
    requires m.core == Core(Info(1, 0), 0, {1}, false)
    ensures Reaches(FIRST, fs, z) && z == m.(slot := Some(1), ops := m.ops[1 := Opening(7, 1, 0)])
  {
    fs, z := Then(es, m, Begin(1, Rebind(7)));
    fs, z := Then(fs, z, Grant(1));
    fs, z := Then(fs, z, ExportReply(1, Revision(0)));
    assert z.ops == m.ops[1 := Opening(7, 1, 0)];
  }

  lemma StreamsOnFirst() returns (es: seq<Event>, m: State)
    ensures Reaches(FIRST, es, m) && m == FIRST.(ops := map[0 := Streaming(1)])
  {
    es, m := Then([], FIRST, Begin(0, Stream));
    es, m := Then(es, m, Grant(0));
    es, m := Then(es, m, SendReply(0, Revision(0)));
    assert m.ops == map[0 := Streaming(1)];
  }

  /** Context 2 is open and being imported into when the stream on context 1 reports it missing. */
  lemma LosesFirst() returns (es: seq<Event>, z: State)
    ensures Reaches(FIRST, es, z) && z.core == Core(Info(1, 0), 0, {1, 2}, true)
    ensures z.ops == map[1 := Importing(7, 1, 0, Info(2, 0))] && z.returned == {1, 2} && z.deleted == {}
  {
    es, z := StreamsOnFirst();
    es, z := Stages(es, z);
    es, z := Then(es, z, OpenReply(1, Some(Info(2, 0)), false));
    es, z := Then(es, z, Complete(0, true));
    assert z.ops == map[1 := Importing(7, 1, 0, Info(2, 0))];
  }

  /** The old context is reported missing by a stream while a rebind is importing; the rebind commits. */
  lemma LostByCutover() returns (es: seq<Event>, z: State)
    ensures Reaches(FIRST, es, z) && z.core.lost && z.core.info.id == 2 && 2 !in z.deleted && 2 in z.returned
  {
    es, z := LosesFirst();
    es, z := Then(es, z, ImportReply(1, Revision(1), false));
  }

  /** The staged context is missing when the rebind imports into it. */
  lemma LostByMissingStage() returns (es: seq<Event>, z: State)
    ensures Reaches(FIRST, es, z) && z.core.lost && z.core.info.id == 1 && 1 !in z.deleted && 1 in z.returned
  {
    es, z := Stages([], FIRST);
    es, z := Then(es, z, OpenReply(1, Some(Info(2, 0)), false));
    es, z := Then(es, z, ImportReply(1, Missing, false));
    es, z := Then(es, z, UnstageReply(1, true));
  }

  /** The service answers the opening of the new context with "not found". */
  lemma LostByMissingOpen() returns (es: seq<Event>, z: State)
    ensures Reaches(FIRST, es, z) && z.core.lost && z.core.info.id == 1 && 1 !in z.deleted && 1 in z.returned
  {
    es, z := Stages([], FIRST);
    es, z := Then(es, z, OpenReply(1, None, true));
  }

  // ----- the variables updated in place -----

  class Session {
    var info: Info
    var connection: Connection
    var cleanup: set<Id>
    var lost: bool

    function View(): Core
      reads this
    {
      Core(info, connection, cleanup, lost)
    }

    constructor (info: Info, connection: Connection)
      ensures View() == Core(info, connection, {info.id}, false)
    {
      this.info, this.connection, cleanup, lost := info, connection, {info.id}, false;
    }

    method TakeRevision(value: nat, id: Id) returns (ok: bool)
      modifies this`info
      ensures ok <==> ApplyRevision(old(View()), value, id).Some?
      ensures View() == if ok then ApplyRevision(old(View()), value, id).value else old(View())
    {
      if info.id != id {
        return true;
      }
      if value < info.revision {
        return false;
      }
      info := info.(revision := value);
      return true;
    }

    method NoteMissing(missing: bool, id: Id)
      modifies this`lost
      ensures View() == MarkLost(old(View()), missing, id)
    {
      if info.id == id && missing {
        lost := true;
      }
    }

    /** After the await of a cookie command. */
    method CommandReplied(id: Id, expected: Option<nat>, reply: Reply)
      modifies this
      ensures View() == CommandCore(old(View()), id, expected, reply)
    {
      if reply.Revision? {
        if expected.Some? && reply.value != expected.value + 1 {
          return;
        }
        var _ := TakeRevision(reply.value, info.id);
      } else {
        NoteMissing(reply.Missing?, id);
      }
    }

    /** After the await of an exchange's response; `ok` if the body may be streamed. */
    method SendReplied(managed: bool, current: Info, reply: Reply) returns (ok: bool)
      modifies this
      ensures ok <==> SendCore(old(View()), managed, current, reply).Some?
      ensures View() == if ok then SendCore(old(View()), managed, current, reply).value
                        else MarkLost(old(View()), reply.Missing?, current.id)
    {
      match reply
      case Revision(n) =>
        if managed && n < current.revision {
          return false;
        }
        ok := TakeRevision(n, current.id);
      case Plain => ok := !managed;
      case _ =>
        NoteMissing(reply.Missing?, current.id);
        ok := false;
    }

    /** After the await of the import into the staged context: the cutover, or the stage is owed a deletion. */
    method ImportReplied(next: Info, wanted: Connection, reply: Reply, aborted: bool) returns (previous: Option<Id>)
      modifies this
      ensures previous == if Commits(next, reply, aborted) then Some(old(info).id) else None
      ensures View() == ImportCore(old(View()), next, wanted, reply, aborted)
    {
      if !reply.Revision? || reply.value != next.revision + 1 || aborted {
        cleanup := cleanup + {next.id};
        return None;
      }
      previous := Some(info.id);
      info := Info(next.id, reply.value);
      connection := wanted;
      cleanup := cleanup + {previous.value};
    }
  }
}
